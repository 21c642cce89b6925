/** The four uniform-time-course records of the newer snapshot
    (src/sed_tooling/sed_model/uniform_time_course.py). They differ only in the one type
    string each accepts (`SimulationTypes.TypeCheck`); the points and time validators are
    the same text in all four classes and are modelled once. Unlike their ancestors, these
    classes check their type with a pattern `re` compiles, so running every validator can
    succeed. */
module UniformTimeCourse {
  import opened Outcomes
  import opened PyText
  import opened PyNumbers
  import opened PyValues
  import opened Patterns
  import opened FieldChecks
  import opened Dicts
  import Simulation
  import opened SimulationTypes
  import Pydantic

  /** The declared fields in pydantic's order: those of `Action` and `Simulation` first,
      then the class's own. An `Optional` annotation without a default must still be
      supplied, though it may be `None`. */
  const FIELDS: seq<Pydantic.Field> := [
    Pydantic.Field("name", Pydantic.StrField, Pydantic.Required),
    Pydantic.Field("identifier", Pydantic.StrField, Pydantic.Required),
    Pydantic.Field("type", Pydantic.StrField, Pydantic.Required),
    Pydantic.Field("model", Pydantic.StrField, Pydantic.Required),
    Pydantic.Field("algorithm", Pydantic.StrField, Pydantic.Required),
    Pydantic.Field("algorithmParameters", Pydantic.ScalarDictField, Pydantic.Nullable),
    Pydantic.Field("numDataPoints", Pydantic.StrOrIntField, Pydantic.Required),
    Pydantic.Field("endTime", Pydantic.FloatOrStrField, Pydantic.Required),
    Pydantic.Field("startTime", Pydantic.FloatOrStrField, Pydantic.Nullable),
    Pydantic.Field("outputStartTime", Pydantic.FloatOrStrField, Pydantic.Nullable)
  ]

  /** `validate_points`: a string that is not a whole reference must be read by `int()`
      and becomes the decimal text of that integer; a reference is kept; anything else
      becomes the text `str()` gives for it. */
  function ValidatePoints(v: PyValue): (r: Result<string>)
    ensures v.PyStr? && IsReference(v.s) ==> r == Ok(v.s)
    ensures v.PyStr? && !IsReference(v.s) ==> (r.Ok? <==> ParseInt(v.s).Some?)
    ensures v.PyStr? && !IsReference(v.s) && r.Ok? ==>
              r.value == IntText(ParseInt(v.s).value) && ParseInt(r.value) == ParseInt(v.s)
    ensures r.Err? ==> v.PyStr? && r.error == ValueError(v.s)
    ensures v.PyInt? ==> r == Ok(IntText(v.i))
    ensures v.PyBool? ==> r == Ok(BoolText(v.b))
  {
    match v
    case PyStr(s) =>
      if IsReference(s) then Ok(s)
      else if ParseInt(s).None? then Err(ValueError(s))
      else
        IntTextRoundTrip(ParseInt(s).value);
        Ok(IntText(ParseInt(s).value))
    case _ => Ok(Str(v))
  }

  /** The text of an integer never starts with `#`. */
  lemma IntTextNotReference(n: int)
    ensures !IsReference(IntText(n))
  {
    var t := IntText(n);
    if n >= 0 { assert IsDigit(t[0]); }
  }

  /** Validating the points again gives the same text, for the string and integer
      values the field is declared to hold. */
  lemma PointsIdempotent(v: PyValue)
    requires v.PyStr? || v.PyInt?
    requires ValidatePoints(v).Ok?
    ensures ValidatePoints(PyStr(ValidatePoints(v).value)) == ValidatePoints(v)
  {
    match v
    case PyInt(i) =>
      IntTextNotReference(i);
      IntTextRoundTrip(i);
    case PyStr(s) =>
      if !IsReference(s) {
        var n := ParseInt(s).value;
        IntTextNotReference(n);
        IntTextRoundTrip(n);
      }
  }

  /** A bool is an int to Python, but its text is a word: `True` gives "True", which a
      second validation rejects. */
  lemma BoolPointsNotIdempotent()
    ensures ValidatePoints(PyBool(true)) == Ok("True")
    ensures ValidatePoints(PyStr("True")) == Err(ValueError("True"))
  {
    assert "True"[0] != '#';
    NotNumberStart("True");
  }

  /** Leading zeros are dropped. */
  lemma PaddedPointsCanonical()
    ensures ValidatePoints(PyStr("007")) == Ok("7")
  {
    var s := "007";
    assert s[0] != '#';
    SevenDigits();
    assert IntText(7) == [DigitChar(7)] == "7";
  }

  lemma SevenDigits()
    ensures ParseInt("007") == Some(7)
  {
    var s := "007";
    assert AllDigits(s) by {
      forall i | 0 <= i < |s| ensures IsDigit(s[i]) { }
    }
    DigitsText(s);
    SevenValue();
  }

  lemma SevenValue()
    ensures DigitsValue("007") == 7
  {
    var s := "007";
    assert s[..2] == "00";
    assert DigitsValue("0") == 0 by { assert "0"[..0] == []; }
    assert DigitsValue("00") == 0 by { assert "00"[..1] == "0"; }
  }

  /** A reference is kept as it is. */
  lemma ReferencePointsKept()
    ensures ValidatePoints(PyStr("#n")) == Ok("#n")
  {
    assert "#n"[1..] == "n";
  }

  /** A fraction is no integer. */
  lemma FractionPointsRejected()
    ensures ValidatePoints(PyStr("1.5")) == Err(ValueError("1.5"))
  {
    var s := "1.5";
    assert s[0] != '#';
    assert ParseInt(s) == None by {
      assert NoSpace(s) by {
        forall i | 0 <= i < |s| ensures !IsSpace(s[i]) { }
      }
      assert Strip(s) == s;
      assert !DigitOrJoiner(s, 1);
      assert !IsDigitPart(s);
    }
  }

  /** `validate_times`: `None` passes as `None`; a string that is not a whole reference
      must be read by `float()` and becomes the text of that float, `floatText` standing
      for `str(float(s))`; a reference is kept; anything else becomes its `str()`. */
  function ValidateTimes(floatText: string -> string, v: PyValue): (r: Result<Option<string>>)
    ensures v.PyNone? ==> r == Ok(None)
    ensures v.PyStr? && IsReference(v.s) ==> r == Ok(Some(v.s))
    ensures v.PyStr? && !IsReference(v.s) ==> (r.Ok? <==> ParsesAsFloat(v.s))
    ensures v.PyStr? && !IsReference(v.s) && r.Ok? ==> r.value == Some(floatText(v.s))
    ensures r.Err? ==> v.PyStr? && r.error == ValueError(v.s)
    ensures v.PyFloat? ==> r == Ok(Some(v.f))
  {
    match v
    case PyNone => Ok(None)
    case PyStr(s) =>
      if IsReference(s) then Ok(Some(s))
      else if ParsesAsFloat(s) then Ok(Some(floatText(s)))
      else Err(ValueError(s))
    case _ => Ok(Some(Str(v)))
  }

  /** `floatText` gives the text of a float for every string `float()` reads. */
  ghost predicate FloatFormatting(floatText: string -> string) {
    forall s :: ParsesAsFloat(s) ==> IsFloatText(floatText(s))
  }

  /** What the time validator returns passes it again. */
  lemma TimesRecheck(floatText: string -> string, v: PyValue)
    requires FloatFormatting(floatText)
    requires v.PyFloat? ==> IsFloatText(v.f)
    requires v.PyStr? || v.PyFloat?
    requires ValidateTimes(floatText, v).Ok?
    ensures ValidateTimes(floatText, PyStr(ValidateTimes(floatText, v).value.value)).Ok?
  {
    var t := ValidateTimes(floatText, v).value.value;
    if !(v.PyStr? && IsReference(v.s)) {
      assert IsFloatText(t);
      FloatTextNotReference(t);
      assert Strip(t) == t;
    }
  }

  /** A uniform time course: the fields of `Simulation` and then its own. */
  datatype UniformTimeCourse = UniformTimeCourse(
    name: string, identifier: string, typeName: string,
    model: string, algorithm: string, algorithmParameters: Option<Dict<PyValue>>,
    numDataPoints: PyValue, endTime: PyValue, startTime: PyValue, outputStartTime: PyValue)

  /** The values the validators return for the fields they rewrite. */
  datatype Canonical = Canonical(
    parameters: Option<string>, points: string,
    endTime: Option<string>, startTime: Option<string>, outputStartTime: Option<string>)

  /** Every validator of a uniform time course of kind `k`, in field order: `legal_id` of
      `Action`, the class's own type check, the `Simulation` checks, then points and
      times. Every exception they raise is one pydantic collects, so the first failing
      field is reported (as `Settle` does for such outcomes); when all pass, the
      rewritten values are given back. */
  function Validate(k: Kind, floatText: string -> string, x: UniformTimeCourse): (r: Result<Canonical>)
    requires x.algorithmParameters.Some? ==> x.algorithmParameters.value.Valid()
    ensures r.Ok? <==>
      && IsIdentifier(x.identifier) && x.typeName == TypeLiteral(UTC, k)
      && MatchReference("model", x.model).Ok?
      && Simulation.LegalAlgorithm(x.algorithm).Ok?
      && Simulation.LegalParameters(x.algorithmParameters).Ok?
      && ValidatePoints(x.numDataPoints).Ok?
      && ValidateTimes(floatText, x.endTime).Ok?
      && ValidateTimes(floatText, x.startTime).Ok?
      && ValidateTimes(floatText, x.outputStartTime).Ok?
    ensures r.Ok? ==> r.value == Canonical(
      Simulation.LegalParameters(x.algorithmParameters).value,
      ValidatePoints(x.numDataPoints).value,
      ValidateTimes(floatText, x.endTime).value,
      ValidateTimes(floatText, x.startTime).value,
      ValidateTimes(floatText, x.outputStartTime).value)
    ensures r.Err? ==> r.error.IsCollected()
    ensures !IsIdentifier(x.identifier) ==> r == Err(AssertionError("identifier"))
  {
    var params := Simulation.LegalParameters(x.algorithmParameters);
    var points := ValidatePoints(x.numDataPoints);
    var endTime := ValidateTimes(floatText, x.endTime);
    var startTime := ValidateTimes(floatText, x.startTime);
    var outputStartTime := ValidateTimes(floatText, x.outputStartTime);
    var id := FullmatchIdentifier(Stdlib, "identifier", x.identifier);
    var ty := TypeCheck(UTC, k, x.typeName);
    var model := MatchReference("model", x.model);
    var algorithm := Simulation.LegalAlgorithm(x.algorithm);
    if id.Err? then Err(id.error)
    else if ty.Err? then Err(ty.error)
    else if model.Err? then Err(model.error)
    else if algorithm.Err? then Err(algorithm.error)
    else if params.Err? then Err(params.error)
    else if points.Err? then Err(points.error)
    else if endTime.Err? then Err(endTime.error)
    else if startTime.Err? then Err(startTime.error)
    else if outputStartTime.Err? then Err(outputStartTime.error)
    else Ok(Canonical(params.value, points.value, endTime.value, startTime.value, outputStartTime.value))
  }
}
