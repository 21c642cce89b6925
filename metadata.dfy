/** The `Metadata` record, in the newer snapshot (src/sed_tooling/sed_model/metadata.py)
    and the older one (src/sed_converter/metadata/metadata.py). Both register their
    validators: level and version are pinned to 1 and every ontology must come from a
    fixed list. The two snapshots differ only in that list. */
module Metadata {
  import opened Outcomes
  import opened PyNumbers
  import opened PyValues
  import opened Pydantic

  /** The ontologies the newer snapshot admits. */
  const CURRENT: seq<string> := [
    "sed", "pe", "output<csv>", "output<hdf5>", "output<plot<2D>>", "output<plot<3D>>",
    "sbml", "sim", "cosim", "BioSim", "KiSAO"]

  /** The ontologies the older snapshot admits. */
  const LEGACY: seq<string> := [
    "sed", "pe", "output", "csv", "hdf5", "plot", "modeling", "sbml", "simulation", "sim",
    "cosim", "BioSim", "KiSAO"]

  datatype Metadata = Metadata(name: string, level: int, version: int, ontologies: seq<string>)

  /** `check_level` and `check_version`, on the int pydantic has already made of the
      value: it must be above 0 and below 2. */
  function CheckPinned(field: string, v: int): (r: Result<int>)
    ensures r.Ok? <==> v == 1
    ensures r.Ok? ==> r.value == v
    ensures r.Err? ==> r.error == AssertionError(field)
  {
    if !(v > 0) then Err(AssertionError(field))
    else if !(v < 2) then Err(AssertionError(field))
    else Ok(v)
  }

  /** `verify_ontologies`: every entry must be on the list; the list is returned as it
      came, in its order and with its repeats. */
  function VerifyOntologies(valid: seq<string>, v: seq<string>): (r: Result<seq<string>>)
    ensures r.Ok? <==> forall i :: 0 <= i < |v| ==> v[i] in valid
    ensures r.Ok? ==> r.value == v
    ensures r.Err? ==> r.error == AssertionError("ontologies")
  {
    if forall i :: 0 <= i < |v| ==> v[i] in valid then Ok(v) else Err(AssertionError("ontologies"))
  }

  /** The loop of `verify_ontologies`: each entry in turn is asserted to be on the
      list, the first one that is not stops it, and the list is returned as it came. */
  method CheckOntologies(valid: seq<string>, v: seq<string>) returns (r: Result<seq<string>>)
    ensures r.Ok? <==> forall i :: 0 <= i < |v| ==> v[i] in valid
    ensures r.Ok? ==> r.value == v
    ensures r.Err? ==> r.error == AssertionError("ontologies")
    ensures r == VerifyOntologies(valid, v)
  {
    var i := 0;
    while i < |v|
      invariant 0 <= i <= |v|
      invariant forall j :: 0 <= j < i ==> v[j] in valid
    {
      if v[i] !in valid {
        return Err(AssertionError("ontologies"));
      }
      i := i + 1;
    }
    return Ok(v);
  }

  /** An int field pinned to 1: the supplied value is made an int, then checked. */
  function PinnedField(kwargs: seq<(string, PyValue)>, field: string): (r: Result<int>)
    ensures r.Ok? ==> r.value == 1
    ensures r.Ok? <==> field in Keys(kwargs) && AsInt(field, Lookup(kwargs, field).value) == Ok(1)
    ensures r.Err? ==> r.error.IsCollected()
  {
    var given :- Given(kwargs, field);
    var n :- AsInt(field, given);
    CheckPinned(field, n)
  }

  /** `Metadata(**kwargs)` against the list `valid`: what is built has level 1,
      version 1 and only listed ontologies, and every failure is a field error pydantic
      collects. */
  function Build(valid: seq<string>, kwargs: seq<(string, PyValue)>): (r: Result<Metadata>)
    ensures r.Ok? ==> r.value.level == 1 && r.value.version == 1
    ensures r.Ok? ==> forall i :: 0 <= i < |r.value.ontologies| ==> r.value.ontologies[i] in valid
    ensures r.Ok? ==> Lookup(kwargs, "name") == Some(PyStr(r.value.name))
    ensures r.Ok? ==> Lookup(kwargs, "ontologies").Some?
                      && AsStrList("ontologies", Lookup(kwargs, "ontologies").value) == Ok(r.value.ontologies)
    ensures r.Err? ==> r.error.IsCollected()
  {
    var name :- Text(kwargs, "name");
    var level :- PinnedField(kwargs, "level");
    var version :- PinnedField(kwargs, "version");
    var given :- Given(kwargs, "ontologies");
    var names :- AsStrList("ontologies", given);
    var ontologies :- VerifyOntologies(valid, names);
    Ok(Metadata(name, level, version, ontologies))
  }

  /** The keyword arguments of a record with the given level and version. */
  function Kwargs(name: string, level: PyValue, version: PyValue, ontologies: seq<string>)
    : seq<(string, PyValue)>
  {
    [("name", PyStr(name)), ("level", level), ("version", version),
     ("ontologies", TextList(ontologies))]
  }

  /** A record whose level and version read as 1 is built exactly when its ontologies
      are all listed, and then it is kept as given; otherwise the ontologies are
      reported. */
  lemma BuildRecord(valid: seq<string>, name: string, level: PyValue, version: PyValue, ontologies: seq<string>)
    requires AsInt("level", level) == Ok(1) && AsInt("version", version) == Ok(1)
    ensures var r := Build(valid, Kwargs(name, level, version, ontologies));
      && (r.Ok? <==> forall i :: 0 <= i < |ontologies| ==> ontologies[i] in valid)
      && (r.Ok? ==> r.value == Metadata(name, 1, 1, ontologies))
      && (r.Err? ==> r.error == AssertionError("ontologies"))
  {
    RecordFields(name, level, version, ontologies);
    TextListRead("ontologies", ontologies);
  }

  lemma RecordFields(name: string, level: PyValue, version: PyValue, ontologies: seq<string>)
    requires AsInt("level", level) == Ok(1) && AsInt("version", version) == Ok(1)
    ensures Text(Kwargs(name, level, version, ontologies), "name") == Ok(name)
    ensures PinnedField(Kwargs(name, level, version, ontologies), "level") == Ok(1)
    ensures PinnedField(Kwargs(name, level, version, ontologies), "version") == Ok(1)
    ensures Given(Kwargs(name, level, version, ontologies), "ontologies") == Ok(TextList(ontologies))
  {
    LookupFour(("name", PyStr(name)), ("level", level), ("version", version),
               ("ontologies", TextList(ontologies)));
  }

  /** Any level other than 1 is refused with an error naming the level. */
  lemma OtherLevelRefused(valid: seq<string>, name: string, level: int, ontologies: seq<string>)
    requires level != 1
    ensures Build(valid, Kwargs(name, PyInt(level), PyInt(1), ontologies)) == Err(AssertionError("level"))
  {
    var kw := Kwargs(name, PyInt(level), PyInt(1), ontologies);
    LookupLastEntry(kw, 0);
    LookupLastEntry(kw, 1);
  }

  /** A level given as the text "1" is read as the int 1: the record is the same. */
  lemma TextLevelAccepted(valid: seq<string>, name: string, ontologies: seq<string>)
    ensures Build(valid, Kwargs(name, PyStr("1"), PyInt(1), ontologies))
              == Build(valid, Kwargs(name, PyInt(1), PyInt(1), ontologies))
  {
    OneTextReadsAsOne();
    BuildRecord(valid, name, PyStr("1"), PyInt(1), ontologies);
    BuildRecord(valid, name, PyInt(1), PyInt(1), ontologies);
  }

  /** pydantic's lax `int` reads the bool `True` and the float `1.0` as 1 too: a level
      and version given so build the same record. */
  lemma LaxOneAccepted(valid: seq<string>, name: string, ontologies: seq<string>)
    ensures Build(valid, Kwargs(name, PyBool(true), PyFloat("1.0"), ontologies))
              == Build(valid, Kwargs(name, PyInt(1), PyInt(1), ontologies))
  {
    IntReadBack("level", 1);
    IntReadBack("version", 1);
    OneAsFloat();
    BuildRecord(valid, name, PyBool(true), PyFloat("1.0"), ontologies);
    BuildRecord(valid, name, PyInt(1), PyInt(1), ontologies);
  }

  lemma OneTextReadsAsOne()
    ensures AsInt("level", PyStr("1")) == Ok(1)
  {
    DigitReadsAsInt("level", '1');
    assert ['1'] == "1";
  }

  /** A single digit given as text is read as its value. */
  lemma DigitReadsAsInt(field: string, c: char)
    requires IsDigit(c)
    ensures AsInt(field, PyStr([c])) == Ok(DigitValue(c))
  {
    assert AllDigits([c]);
    DigitsInt([c]);
    OneDigitValue(c);
  }

  /** The newer list has "sed" and the output kinds, but no longer "modeling", and no
      SBML version. */
  lemma CurrentExamples()
    ensures VerifyOntologies(CURRENT, ["sed", "output<csv>"]).Ok?
    ensures VerifyOntologies(CURRENT, ["modeling"]) == Err(AssertionError("ontologies"))
    ensures VerifyOntologies(CURRENT, ["sbml<3,2>"]) == Err(AssertionError("ontologies"))
    ensures VerifyOntologies(CURRENT, []) == Ok([])
  {
    assert ["sed", "output<csv>"][0] in CURRENT && ["sed", "output<csv>"][1] in CURRENT;
    assert ["modeling"][0] == "modeling" && "modeling" !in CURRENT;
    assert ["sbml<3,2>"][0] == "sbml<3,2>" && "sbml<3,2>" !in CURRENT;
  }

  /** The older list has "sed" and "modeling" but not the parameterised output kinds. */
  lemma LegacyExamples()
    ensures VerifyOntologies(LEGACY, ["sed", "modeling"]).Ok?
    ensures VerifyOntologies(LEGACY, ["output<csv>"]) == Err(AssertionError("ontologies"))
  {
    assert ["sed", "modeling"][0] in LEGACY && ["sed", "modeling"][1] in LEGACY;
    assert ["output<csv>"][0] == "output<csv>" && "output<csv>" !in LEGACY;
  }

  /** The test document's metadata is built unchanged by the older snapshot. */
  lemma TestMetadataBuilt()
    ensures Build(LEGACY, Kwargs("test", PyInt(1), PyInt(1), ["sed"])) == Ok(Metadata("test", 1, 1, ["sed"]))
  {
    assert ["sed"][0] in LEGACY;
    BuildRecord(LEGACY, "test", PyInt(1), PyInt(1), ["sed"]);
  }
}
