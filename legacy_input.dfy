/** The `Input` record of the older snapshot (src/sed_converter/io/input.py), the one the
    test document is built from. Its validators are registered, so building a record
    runs them: the identifier by a prefix match, the type by splitting on `::`, and a
    target that is a reference prefix or text `int()` reads. */
module LegacyInput {
  import opened Outcomes
  import opened PyText
  import opened PyNumbers
  import opened PyValues
  import opened Patterns
  import opened FieldChecks
  import opened Pydantic

  datatype Input = Input(name: string, identifier: string, typeName: string, target: string)

  /** `validate_interval_with_reference` as written for `target`. A float or int (a bool
      counts as an int) becomes the text of its float; a string starting with `#` needs
      only one identifier character after it; any other string must be read by `int()`
      and is kept as it is; anything else has no `startswith`. */
  function Target(v: PyValue): (r: Result<string>)
    ensures v.PyFloat? ==> r == Ok(v.f)
    ensures v.PyInt? ==> r == Ok(FloatOfInt(v.i))
    ensures v.PyBool? ==> r == Ok(FloatOfInt(if v.b then 1 else 0))
    ensures v.PyStr? && |v.s| > 0 && v.s[0] == '#' ==>
              (r.Ok? <==> |v.s| >= 2 && IsIdentChar(v.s[1])) && (r.Err? ==> r.error == AssertionError("target"))
    ensures v.PyStr? && !(|v.s| > 0 && v.s[0] == '#') ==>
              (r.Ok? <==> ParseInt(v.s).Some?) && (r.Err? ==> r.error == ValueError(v.s))
    ensures v.PyStr? && r.Ok? ==> r.value == v.s
    ensures v.PyNone? || v.PyList? || v.PyDict? ==> r == Err(AttributeError("startswith"))
  {
    match v
    case PyFloat(f) => Ok(f)
    case PyInt(i) => Ok(FloatOfInt(i))
    case PyBool(b) => Ok(FloatOfInt(if b then 1 else 0))
    case PyStr(s) =>
      if |s| > 0 && s[0] == '#' then MatchReference("target", s)
      else if ParseInt(s).Some? then Ok(s)
      else Err(ValueError(s))
    case _ => Err(AttributeError("startswith"))
  }

  /** The record passes all three of its validators. */
  predicate Accepted(x: Input) {
    MatchIdentifier("identifier", x.identifier).Ok? && SplitType("type", x.typeName).Ok?
    && Target(PyStr(x.target)).Ok?
  }

  function Kwargs(x: Input): seq<(string, PyValue)> {
    [("name", PyStr(x.name)), ("identifier", PyStr(x.identifier)), ("type", PyStr(x.typeName)),
     ("target", PyStr(x.target))]
  }

  /** `Input(**kwargs)`: each field is converted to `str` and then validated, in field
      order. Every error these validators raise is one pydantic collects, so the outcome
      is a record or the first field error, and whatever is built passes all the
      validators with the strings it was given. */
  function Build(kwargs: seq<(string, PyValue)>): (r: Result<Input>)
    ensures r.Ok? ==> Accepted(r.value)
    ensures r.Ok? ==> Lookup(kwargs, "name") == Some(PyStr(r.value.name))
    ensures r.Ok? ==> Lookup(kwargs, "identifier") == Some(PyStr(r.value.identifier))
    ensures r.Ok? ==> Lookup(kwargs, "type") == Some(PyStr(r.value.typeName))
    ensures r.Ok? ==> Lookup(kwargs, "target") == Some(PyStr(r.value.target))
    ensures r.Err? ==> r.error.IsCollected()
  {
    var name :- Text(kwargs, "name");
    var identifier :- CheckedText(kwargs, "identifier", v => MatchIdentifier("identifier", v));
    var typeName :- CheckedText(kwargs, "type", v => SplitType("type", v));
    var target :- CheckedText(kwargs, "target", v => Target(PyStr(v)));
    Ok(Input(name, identifier, typeName, target))
  }

  lemma KwargsSupplyText(x: Input)
    ensures Lookup(Kwargs(x), "name") == Some(PyStr(x.name))
    ensures Lookup(Kwargs(x), "identifier") == Some(PyStr(x.identifier))
    ensures Lookup(Kwargs(x), "type") == Some(PyStr(x.typeName))
    ensures Lookup(Kwargs(x), "target") == Some(PyStr(x.target))
  {
    var kw := Kwargs(x);
    LookupLastEntry(kw, 0);
    LookupLastEntry(kw, 1);
    LookupLastEntry(kw, 2);
    LookupLastEntry(kw, 3);
  }

  /** A record given field by field is built exactly when it passes its validators, and
      is then kept as given. */
  lemma BuildRecord(x: Input)
    ensures Build(Kwargs(x)).Ok? <==> Accepted(x)
    ensures Build(Kwargs(x)).Ok? ==> Build(Kwargs(x)).value == x
  {
    KwargsSupplyText(x);
  }

  /** A number given for `target` never reaches the validator's numeric branch: the
      `str` field refuses it first. */
  lemma NumberTargetRefused(x: Input, n: int)
    requires MatchIdentifier("identifier", x.identifier).Ok? && SplitType("type", x.typeName).Ok?
    ensures Build(Kwargs(x)[3 := ("target", PyInt(n))]) == Err(WrongFieldType("target"))
  {
    var kw := Kwargs(x)[3 := ("target", PyInt(n))];
    LookupLastEntry(kw, 0);
    LookupLastEntry(kw, 1);
    LookupLastEntry(kw, 2);
    LookupLastEntry(kw, 3);
  }

  /** The inputs of the test document are built unchanged. */
  lemma TestInputsBuilt()
    ensures Build(Kwargs(Input("input1", "var1id", "org1::mytype", "#target1")))
              == Ok(Input("input1", "var1id", "org1::mytype", "#target1"))
  {
    TestInputAccepted();
    BuildRecord(Input("input1", "var1id", "org1::mytype", "#target1"));
  }

  lemma TestInputAccepted()
    ensures Accepted(Input("input1", "var1id", "org1::mytype", "#target1"))
  {
    QualifiedSplitTypeAccepted();
    TestIdentifierAccepted();
    TestTargetAccepted();
  }

  lemma TestIdentifierAccepted()
    ensures MatchIdentifier("identifier", "var1id").Ok?
  {
    assert IsIdentChar("var1id"[0]);
  }

  lemma TestTargetAccepted()
    ensures Target(PyStr("#target1")).Ok?
  {
    assert IsIdentChar("#target1"[1]);
  }

  /** Digits are a target. */
  lemma DigitsTargetKept()
    ensures Target(PyStr("12")) == Ok("12")
  {
    assert AllDigits("12");
    DigitsText("12");
  }

  /** A word is not a target. */
  lemma WordTargetRejected()
    ensures Target(PyStr("target1")) == Err(ValueError("target1"))
  {
    NotNumberStart("target1");
  }

  /** A decimal fraction is not a target either: `int()` does not read it. */
  lemma FractionTargetRejected()
    ensures Target(PyStr("1.5")) == Err(ValueError("1.5"))
  {
    assert NoSpace("1.5");
    assert !DigitOrJoiner("1.5", 1);
  }
}
