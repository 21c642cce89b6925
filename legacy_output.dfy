/** The `Output` record of the older snapshot (src/sed_converter/io/output.py). Its
    `interval` is a `Union[float, str]`, so an int arrives at the validator as a float
    and is stored as that float's text; a reference is checked and then dropped, since
    the validator falls off its end and returns `None`. */
module LegacyOutput {
  import opened Outcomes
  import opened PyText
  import opened PyNumbers
  import opened PyValues
  import opened Patterns
  import opened FieldChecks
  import opened Pydantic

  /** `interval` holds the validator's result: a text, or `None` (here `None`). */
  datatype Output = Output(name: string, identifier: string, typeName: string, interval: Option<string>)

  /** `validate_interval_with_reference` as written for `interval`. A float becomes its
      text; a string starting with `#` needs one identifier character after it and
      then yields `None`; any other string must be read by `float()` and is kept as
      written; any other value has no `startswith`. */
  function Interval(v: PyValue): (r: Result<Option<string>>)
    ensures v.PyFloat? ==> r == Ok(Some(v.f))
    ensures v.PyStr? && |v.s| > 0 && v.s[0] == '#' ==>
              (r.Ok? <==> |v.s| >= 2 && IsIdentChar(v.s[1])) && (r.Ok? ==> r.value == None)
              && (r.Err? ==> r.error == AssertionError("interval"))
    ensures v.PyStr? && !(|v.s| > 0 && v.s[0] == '#') ==>
              (r.Ok? <==> ParsesAsFloat(v.s)) && (r.Ok? ==> r.value == Some(v.s))
              && (r.Err? ==> r.error == ValueError(v.s))
    ensures !v.PyFloat? && !v.PyStr? ==> r == Err(AttributeError("startswith"))
  {
    match v
    case PyFloat(f) => Ok(Some(f))
    case PyStr(s) =>
      if |s| > 0 && s[0] == '#' then
        match MatchReference("interval", s)
        case Ok(_) => Ok(None)
        case Err(e) => Err(e)
      else if ParsesAsFloat(s) then Ok(Some(s))
      else Err(ValueError(s))
    case _ => Err(AttributeError("startswith"))
  }

  /** The value supplied for `interval`, converted to `Union[float, str]` and validated. */
  function CheckedInterval(kwargs: seq<(string, PyValue)>): (r: Result<Option<string>>)
    ensures r.Err? ==> r.error.IsCollected()
    ensures r.Ok? ==> Lookup(kwargs, "interval").Some?
    ensures r.Ok? ==> var v := Lookup(kwargs, "interval").value;
              (v.PyFloat? ==> r.value == Some(v.f)) && (v.PyInt? ==> r.value == Some(FloatOfInt(v.i)))
              && (v.PyBool? ==> r.value == Some(FloatOfInt(if v.b then 1 else 0)))
              && (v.PyStr? ==> r == Interval(v))
  {
    var given :- Given(kwargs, "interval");
    var coerced :- CoerceFloatOrStr("interval", given);
    Interval(coerced)
  }

  function Kwargs(o: Output): seq<(string, PyValue)> {
    [("name", PyStr(o.name)), ("identifier", PyStr(o.identifier)), ("type", PyStr(o.typeName)),
     ("interval", if o.interval.Some? then PyStr(o.interval.value) else PyNone)]
  }

  /** `Output(**kwargs)`: each field is converted and then validated, in field order.
      Every error raised on the way is one pydantic collects (the coercion leaves the
      validator no value without `startswith`), so the outcome is a record that passes
      the identifier and type checks, or the first field error. */
  function Build(kwargs: seq<(string, PyValue)>): (r: Result<Output>)
    ensures r.Ok? ==> MatchIdentifier("identifier", r.value.identifier).Ok?
    ensures r.Ok? ==> SplitType("type", r.value.typeName).Ok?
    ensures r.Ok? ==> Lookup(kwargs, "name") == Some(PyStr(r.value.name))
    ensures r.Ok? ==> Lookup(kwargs, "identifier") == Some(PyStr(r.value.identifier))
    ensures r.Ok? ==> Lookup(kwargs, "type") == Some(PyStr(r.value.typeName))
    ensures r.Ok? ==> CheckedInterval(kwargs) == Ok(r.value.interval)
    ensures r.Err? ==> r.error.IsCollected()
  {
    var name :- Text(kwargs, "name");
    var identifier :- CheckedText(kwargs, "identifier", v => MatchIdentifier("identifier", v));
    var typeName :- CheckedText(kwargs, "type", v => SplitType("type", v));
    var interval :- CheckedInterval(kwargs);
    Ok(Output(name, identifier, typeName, interval))
  }

  /** An interval whose text is stored validates again to the same text. */
  lemma {:induction false} IntervalIdempotent(v: PyValue)
    requires Interval(v).Ok? && Interval(v).value.Some?
    requires v.PyFloat? ==> IsFloatText(v.f)
    ensures Interval(PyStr(Interval(v).value.value)) == Interval(v)
  {
    if v.PyFloat? {
      FloatTextKept(v.f);
    }
  }

  lemma FloatTextKept(f: string)
    requires IsFloatText(f)
    ensures Interval(PyStr(f)) == Ok(Some(f))
  {
    FloatTextNotReference(f);
    NumberKept(f);
  }

  lemma NumberKept(s: string)
    requires ParsesAsFloat(s) && |s| > 0 && s[0] != '#'
    ensures Interval(PyStr(s)) == Ok(Some(s))
  {
  }

  /** Floats given as values are given by their text. */
  predicate FloatsAreText(kwargs: seq<(string, PyValue)>) {
    Lookup(kwargs, "interval").Some? && Lookup(kwargs, "interval").value.PyFloat? ==>
      IsFloatText(Lookup(kwargs, "interval").value.f)
  }

  /** Dumping a built record and building it again gives the same record, as long as
      its interval was kept as text: this is what lets the test document survive its
      JSON round trip. */
  lemma RoundTrip(kwargs: seq<(string, PyValue)>)
    requires Build(kwargs).Ok? && Build(kwargs).value.interval.Some?
    requires FloatsAreText(kwargs)
    ensures Build(Kwargs(Build(kwargs).value)) == Build(kwargs)
  {
    var o := Build(kwargs).value;
    StoredIntervalStable(kwargs, o.interval.value);
    Rebuilt(o);
  }

  /** The text stored for an interval validates to itself. */
  lemma StoredIntervalStable(kwargs: seq<(string, PyValue)>, t: string)
    requires CheckedInterval(kwargs) == Ok(Some(t))
    requires FloatsAreText(kwargs)
    ensures Interval(PyStr(t)) == Ok(Some(t))
  {
    var v := Lookup(kwargs, "interval").value;
    match v
    case PyFloat(f) => FloatTextKept(f);
    case PyInt(i) => FloatOfIntIsFloat(i); FloatTextKept(FloatOfInt(i));
    case PyBool(b) =>
      var n := if b then 1 else 0;
      FloatOfIntIsFloat(n); FloatTextKept(FloatOfInt(n));
    case PyStr(s) => IntervalIdempotent(v);
    case _ =>
  }

  /** A record whose interval text validates to itself is built again unchanged. */
  lemma Rebuilt(o: Output)
    requires MatchIdentifier("identifier", o.identifier).Ok? && SplitType("type", o.typeName).Ok?
    requires o.interval.Some? && Interval(PyStr(o.interval.value)) == Ok(o.interval)
    ensures Build(Kwargs(o)) == Ok(o)
  {
    KwargsSupplyText(o);
  }

  lemma KwargsSupplyText(o: Output)
    ensures Lookup(Kwargs(o), "name") == Some(PyStr(o.name))
    ensures Lookup(Kwargs(o), "identifier") == Some(PyStr(o.identifier))
    ensures Lookup(Kwargs(o), "type") == Some(PyStr(o.typeName))
    ensures Lookup(Kwargs(o), "interval") == Some(Kwargs(o)[3].1)
  {
    var kw := Kwargs(o);
    LookupLastEntry(kw, 0);
    LookupLastEntry(kw, 1);
    LookupLastEntry(kw, 2);
    LookupLastEntry(kw, 3);
  }

  /** A reference interval passes its check but is stored as `None`, which the field's
      type then refuses when the record is built again. */
  lemma ReferenceIntervalLost(o: Output)
    requires MatchIdentifier("identifier", o.identifier).Ok? && SplitType("type", o.typeName).Ok?
    ensures Build(Kwargs(o)[3 := ("interval", PyStr("#a"))]) == Ok(o.(interval := None))
    ensures Build(Kwargs(o.(interval := None))) == Err(WrongFieldType("interval"))
  {
    ReferenceIntervalDropped(o);
    KwargsSupplyText(o.(interval := None));
  }

  /** The reference text "#a" passes the interval check and is dropped. */
  lemma ReferenceIntervalDropped(o: Output)
    requires MatchIdentifier("identifier", o.identifier).Ok? && SplitType("type", o.typeName).Ok?
    ensures Build(Kwargs(o)[3 := ("interval", PyStr("#a"))]) == Ok(o.(interval := None))
  {
    var r := o.(interval := Some("#a"));
    assert Kwargs(o)[3 := ("interval", PyStr("#a"))] == Kwargs(r);
    KwargsSupplyText(r);
    ReferenceTextDropped();
  }

  lemma ReferenceTextDropped()
    ensures Interval(PyStr("#a")) == Ok(None)
  {
    assert IsIdentChar("#a"[1]);
  }

  /** An integer interval is stored as the text of its float. */
  lemma IntegerIntervalBuilt(name: string, identifier: string, typeName: string, n: int)
    requires MatchIdentifier("identifier", identifier).Ok? && SplitType("type", typeName).Ok?
    ensures Build([("name", PyStr(name)), ("identifier", PyStr(identifier)),
                   ("type", PyStr(typeName)), ("interval", PyInt(n))])
              == Ok(Output(name, identifier, typeName, Some(FloatOfInt(n))))
  {
    LookupFour(("name", PyStr(name)), ("identifier", PyStr(identifier)),
               ("type", PyStr(typeName)), ("interval", PyInt(n)));
  }

  /** The test document's output: the integer interval 1 is stored as "1.0". */
  lemma TestOutputBuilt()
    ensures Build([("name", PyStr("output1")), ("identifier", PyStr("var1id")),
                   ("type", PyStr("org1::mytype")), ("interval", PyInt(1))])
              == Ok(Output("output1", "var1id", "org1::mytype", Some("1.0")))
  {
    QualifiedSplitTypeAccepted();
    TestIdentifierAccepted();
    IntegerIntervalBuilt("output1", "var1id", "org1::mytype", 1);
    OneAsFloat();
  }

  lemma TestIdentifierAccepted()
    ensures MatchIdentifier("identifier", "var1id").Ok?
  {
    assert IsIdentChar("var1id"[0]);
  }
}
