/** The `Load` action of the older snapshot (src/sed_converter/actions/load/load.py).
    Its validators are registered: the identifier and the type as in the other older
    records, and the source and the target by a prefix match of `#` and one segment
    character. */
module LegacyLoad {
  import opened Outcomes
  import opened PyText
  import opened PyValues
  import opened Patterns
  import opened FieldChecks
  import opened Pydantic

  datatype Load = Load(name: string, identifier: string, typeName: string, source: string, target: string)

  /** The record passes all four of its validators. */
  predicate Accepted(l: Load) {
    MatchIdentifier("identifier", l.identifier).Ok? && SplitType("type", l.typeName).Ok?
    && MatchSegmentReference("source", l.source).Ok? && MatchSegmentReference("target", l.target).Ok?
  }

  function Kwargs(l: Load): seq<(string, PyValue)> {
    [("name", PyStr(l.name)), ("identifier", PyStr(l.identifier)), ("type", PyStr(l.typeName)),
     ("source", PyStr(l.source)), ("target", PyStr(l.target))]
  }

  /** `Load(**kwargs)`: each field is converted to `str` and then validated, in field
      order; whatever is built passes all its validators with the strings it was given,
      and every failure is a field error pydantic collects. */
  function Build(kwargs: seq<(string, PyValue)>): (r: Result<Load>)
    ensures r.Ok? ==> Accepted(r.value)
    ensures r.Ok? ==> Lookup(kwargs, "name") == Some(PyStr(r.value.name))
    ensures r.Ok? ==> Lookup(kwargs, "identifier") == Some(PyStr(r.value.identifier))
    ensures r.Ok? ==> Lookup(kwargs, "type") == Some(PyStr(r.value.typeName))
    ensures r.Ok? ==> Lookup(kwargs, "source") == Some(PyStr(r.value.source))
    ensures r.Ok? ==> Lookup(kwargs, "target") == Some(PyStr(r.value.target))
    ensures r.Err? ==> r.error.IsCollected()
  {
    var name :- Text(kwargs, "name");
    var identifier :- CheckedText(kwargs, "identifier", v => MatchIdentifier("identifier", v));
    var typeName :- CheckedText(kwargs, "type", v => SplitType("type", v));
    var source :- CheckedText(kwargs, "source", v => MatchSegmentReference("source", v));
    var target :- CheckedText(kwargs, "target", v => MatchSegmentReference("target", v));
    Ok(Load(name, identifier, typeName, source, target))
  }

  lemma KwargsSupplyText(l: Load)
    ensures Lookup(Kwargs(l), "name") == Some(PyStr(l.name))
    ensures Lookup(Kwargs(l), "identifier") == Some(PyStr(l.identifier))
    ensures Lookup(Kwargs(l), "type") == Some(PyStr(l.typeName))
    ensures Lookup(Kwargs(l), "source") == Some(PyStr(l.source))
    ensures Lookup(Kwargs(l), "target") == Some(PyStr(l.target))
  {
    var kw := Kwargs(l);
    LookupLastEntry(kw, 0);
    LookupLastEntry(kw, 1);
    LookupLastEntry(kw, 2);
    LookupLastEntry(kw, 3);
    LookupLastEntry(kw, 4);
  }

  /** A record given field by field is built exactly when it passes its validators, and
      is then kept as given. */
  lemma BuildRecord(l: Load)
    ensures Build(Kwargs(l)).Ok? <==> Accepted(l)
    ensures Build(Kwargs(l)).Ok? ==> Build(Kwargs(l)).value == l
  {
    KwargsSupplyText(l);
  }

  /** "sbml::load_sbml" is a type under the split rule; "load_sbml" is not. */
  lemma TypeExamples()
    ensures SplitType("type", "sbml::load_sbml") == Ok("sbml::load_sbml")
    ensures SplitType("type", "load_sbml") == Err(AssertionError("type"))
  {
    TwoSegmentsPass("type", "sbml", "load_sbml");
    assert "sbml" + "::" + "load_sbml" == "sbml::load_sbml";
    OneSegmentFails("type", "load_sbml");
  }
}
