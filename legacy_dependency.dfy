/** The `Dependency` record of the older snapshot
    (src/sed_converter/dependencies/dependency.py). Its validators are registered and
    all use prefix matching with the standard `re` module, so the source only needs a
    good first character. */
module LegacyDependency {
  import opened Outcomes
  import opened PyValues
  import opened Patterns
  import opened FieldChecks
  import opened Pydantic

  datatype Dependency = Dependency(name: string, identifier: string, typeName: string, source: string)

  /** `legal_source`: `re.match` with the source pattern, which looks at the first
      character only. */
  function LegalSource(v: string): (r: Result<string>)
    ensures r.Ok? <==> |v| > 0 && IsSourceChar(v[0])
    ensures r.Ok? ==> r.value == v
    ensures r.Err? ==> r.error == AssertionError("source")
  {
    ClassPatternsCompile(Stdlib);
    SourcePrefix(v);
    PrefixCheck(Stdlib, SOURCE_PATTERN, IsSource, "source", v)
  }

  /** The record passes all three of its validators. */
  predicate Accepted(d: Dependency) {
    MatchIdentifier("identifier", d.identifier).Ok? && SplitType("type", d.typeName).Ok?
    && LegalSource(d.source).Ok?
  }

  function Kwargs(d: Dependency): seq<(string, PyValue)> {
    [("name", PyStr(d.name)), ("identifier", PyStr(d.identifier)), ("type", PyStr(d.typeName)),
     ("source", PyStr(d.source))]
  }

  /** `Dependency(**kwargs)`: each field is converted to `str` and then validated, in
      field order; whatever is built passes all its validators with the strings it was
      given, and every failure is a field error pydantic collects. */
  function Build(kwargs: seq<(string, PyValue)>): (r: Result<Dependency>)
    ensures r.Ok? ==> Accepted(r.value)
    ensures r.Ok? ==> Lookup(kwargs, "name") == Some(PyStr(r.value.name))
    ensures r.Ok? ==> Lookup(kwargs, "identifier") == Some(PyStr(r.value.identifier))
    ensures r.Ok? ==> Lookup(kwargs, "type") == Some(PyStr(r.value.typeName))
    ensures r.Ok? ==> Lookup(kwargs, "source") == Some(PyStr(r.value.source))
    ensures r.Err? ==> r.error.IsCollected()
  {
    var name :- Text(kwargs, "name");
    var identifier :- CheckedText(kwargs, "identifier", v => MatchIdentifier("identifier", v));
    var typeName :- CheckedText(kwargs, "type", v => SplitType("type", v));
    var source :- CheckedText(kwargs, "source", LegalSource);
    Ok(Dependency(name, identifier, typeName, source))
  }

  lemma KwargsSupplyText(d: Dependency)
    ensures Lookup(Kwargs(d), "name") == Some(PyStr(d.name))
    ensures Lookup(Kwargs(d), "identifier") == Some(PyStr(d.identifier))
    ensures Lookup(Kwargs(d), "type") == Some(PyStr(d.typeName))
    ensures Lookup(Kwargs(d), "source") == Some(PyStr(d.source))
  {
    var kw := Kwargs(d);
    LookupLastEntry(kw, 0);
    LookupLastEntry(kw, 1);
    LookupLastEntry(kw, 2);
    LookupLastEntry(kw, 3);
  }

  /** A record given field by field is built exactly when it passes its validators, and
      is then kept as given. */
  lemma BuildRecord(d: Dependency)
    ensures Build(Kwargs(d)).Ok? <==> Accepted(d)
    ensures Build(Kwargs(d)).Ok? ==> Build(Kwargs(d)).value == d
  {
    KwargsSupplyText(d);
  }

  /** The prefix match lets a file name with a dot through, but not one that starts with
      a dot, nor an empty source. */
  lemma SourceExamples()
    ensures LegalSource("mysource") == Ok("mysource")
    ensures LegalSource("model.xml") == Ok("model.xml")
    ensures LegalSource(".hidden") == Err(AssertionError("source"))
    ensures LegalSource("") == Err(AssertionError("source"))
  {
  }

  /** The test document's dependency is built unchanged. */
  lemma TestDependencyBuilt()
    ensures Build(Kwargs(Dependency("depname", "depid", "org1::mytype", "mysource")))
              == Ok(Dependency("depname", "depid", "org1::mytype", "mysource"))
  {
    TestDependencyAccepted();
    BuildRecord(Dependency("depname", "depid", "org1::mytype", "mysource"));
  }

  lemma TestDependencyAccepted()
    ensures Accepted(Dependency("depname", "depid", "org1::mytype", "mysource"))
  {
    QualifiedSplitTypeAccepted();
    assert IsIdentChar("depid"[0]);
    assert IsSourceChar("mysource"[0]);
  }
}
