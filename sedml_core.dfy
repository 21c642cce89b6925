/** The SED-ML to Sed converter of the newer snapshot
    (src/sed_tooling/sed_converter/sedml_core.py). `convert_to_sed` reads the namespace
    prefixes of a document the reading adapter has processed, then its models, then its
    plain tasks with their simulations, appending records to a staging object as it goes.
    Any unsupported input raises at once, and whatever was appended before stays. */
module SedmlCore {
  import opened Outcomes
  import opened PyText
  import opened PyNumbers
  import opened PyValues
  import opened Dicts
  import opened Patterns
  import opened SedmlDocument
  import Pydantic
  import FieldChecks
  import Dependency
  import LoadAction
  import Metadata
  import SimulationTypes
  import UniformTimeCourse

  // ------------------------------------------------------------- spatial algorithms

  /** `_spatial_algorithm_kisao_terms`: the algorithms that make a time course spatial.
      Some are written with `:` and some with `_`; one is listed twice. */
  const SPATIAL_KISAO_TERMS: set<string> := {
    "KISAO:0000021", "KISAO:0000057", "KISAO:0000058", "KISAO:0000075", "KISAO:0000095",
    "KISAO:0000264", "KISAO:0000273", "KISAO:0000274", "KISAO:0000278", "KISAO:0000285",
    "KISAO:0000306", "KISAO:0000307", "KISAO:0000308", "KISAO:0000309", "KISAO:0000309",
    "KISAO:0000316", "KISAO_0000337", "KISAO_0000338", "KISAO_0000339", "KISAO_0000340",
    "KISAO_0000341", "KISAO_0000342", "KISAO_0000343", "KISAO_0000345", "KISAO_0000348",
    "KISAO_0000349", "KISAO:0000369", "KISAO:0000582", "KISAO:0000615", "KISAO_0000616"
  }

  /** `is_spatial`: membership of the algorithm's KiSAO id in the table, spelled exactly
      as the table spells it. */
  predicate IsSpatial(kisaoId: string) {
    kisaoId in SPATIAL_KISAO_TERMS
  }

  /** The finite element method counts as spatial only in the `_` spelling the table
      uses, not in the `:` spelling SED-ML files carry; the finite volume method with
      `:` is spatial. */
  lemma SpellingDecidesSpatial()
    ensures IsSpatial("KISAO_0000337") && IsSpatial("KISAO:0000285")
    ensures !IsSpatial("KISAO:0000337") && !IsSpatial("KISAO:0000616")
  {
    var colon337, colon616 := "KISAO:0000337", "KISAO:0000616";
    assert colon337[5] == ':' && colon616[5] == ':';
    assert forall t :: t in SPATIAL_KISAO_TERMS && t[5] == ':' ==> t[9..] != "0337" && t[9..] != "0616";
  }

  // ------------------------------------------------------------- sbml level and version

  /** `int(c)` for the single character `c`. */
  function DigitInt(c: char): (r: Result<int>)
    ensures r.Ok? <==> IsDigit(c)
    ensures r.Ok? ==> 0 <= r.value <= 9 && IntText(r.value) == [c]
    ensures r.Err? ==> r.error == ValueError("invalid literal for int() with base 10: " + StrRepr([c]))
  {
    if IsDigit(c) then
      assert DigitChar(DigitValue(c)) == c;
      Ok(DigitValue(c))
    else Err(ValueError("invalid literal for int() with base 10: " + StrRepr([c])))
  }

  lemma ContainsLength(s: string, sub: string)
    requires Contains(s, sub)
    ensures |sub| <= |s|
  {
  }

  /** The last character of a part, which a part naming a level or version has. */
  function LastChar(part: string, word: string): char
    requires Contains(part, word) && |word| > 0
  {
    ContainsLength(part, word);
    part[|part| - 1]
  }

  datatype LevelVersion = LevelVersion(level: int, version: int)

  /** What the loop over the parts leaves in `sbml_level` and `sbml_version`: a part
      containing "level" sets the level from its last character, then a part containing
      "version" sets the version the same way; `-1` stands for not found. */
  function ScanParts(parts: seq<string>): (r: Result<LevelVersion>)
    ensures r.Ok? ==> -1 <= r.value.level <= 9 && -1 <= r.value.version <= 9
    ensures r.Err? ==> r.error.ValueError?
  {
    if parts == [] then Ok(LevelVersion(-1, -1))
    else
      var prev :- ScanParts(parts[..|parts| - 1]);
      var part := parts[|parts| - 1];
      var level :- if Contains(part, "level") then DigitInt(LastChar(part, "level")) else Ok(prev.level);
      var version :- if Contains(part, "version") then DigitInt(LastChar(part, "version")) else Ok(prev.version);
      Ok(LevelVersion(level, version))
  }

  /** A part that names the level or the version. */
  predicate Tagged(part: string) {
    Contains(part, "level") || Contains(part, "version")
  }

  /** Every tagged part must end in a digit. */
  predicate TaggedPartsEndInDigits(parts: seq<string>) {
    forall i :: 0 <= i < |parts| && Tagged(parts[i]) ==> |parts[i]| > 0 && IsDigit(parts[i][|parts[i]| - 1])
  }

  /** The scan fails exactly when some tagged part does not end in a digit. */
  lemma {:induction false} ScanPartsSucceeds(parts: seq<string>)
    ensures ScanParts(parts).Ok? <==> TaggedPartsEndInDigits(parts)
  {
    if parts != [] {
      var init, part := parts[..|parts| - 1], parts[|parts| - 1];
      ScanPartsSucceeds(init);
      if Tagged(part) {
        if Contains(part, "level") { ContainsLength(part, "level"); }
        else { ContainsLength(part, "version"); }
      }
      if TaggedPartsEndInDigits(parts) {
        forall i | 0 <= i < |init| && Tagged(init[i])
          ensures |init[i]| > 0 && IsDigit(init[i][|init[i]| - 1])
        {
          assert init[i] == parts[i];
        }
      }
      if ScanParts(parts).Ok? {
        forall i | 0 <= i < |parts| && Tagged(parts[i])
          ensures |parts[i]| > 0 && IsDigit(parts[i][|parts[i]| - 1])
        {
          if i < |init| { assert init[i] == parts[i]; }
        }
      }
    }
  }

  /** The value a part contributes for `word`. */
  function Reading(lv: LevelVersion, word: string): int {
    if word == "level" then lv.level else lv.version
  }

  /** The last part naming the level sets the level, and likewise for the version;
      with no such part the value stays `-1`. */
  lemma {:induction false} LastTaggedPartWins(parts: seq<string>, word: string, i: nat)
    requires word == "level" || word == "version"
    requires ScanParts(parts).Ok?
    requires i < |parts| && Contains(parts[i], word)
    requires forall j :: i < j < |parts| ==> !Contains(parts[j], word)
    ensures DigitInt(LastChar(parts[i], word)) == Ok(Reading(ScanParts(parts).value, word))
    decreases |parts|
  {
    var init := parts[..|parts| - 1];
    assert ScanParts(init).Ok?;
    if i < |init| {
      assert init[i] == parts[i];
      LastTaggedPartWins(init, word, i);
    }
  }

  lemma {:induction false} UntaggedStaysUnknown(parts: seq<string>, word: string)
    requires word == "level" || word == "version"
    requires ScanParts(parts).Ok?
    requires forall j :: 0 <= j < |parts| ==> !Contains(parts[j], word)
    ensures Reading(ScanParts(parts).value, word) == -1
  {
    if parts != [] {
      var init := parts[..|parts| - 1];
      assert ScanParts(init).Ok?;
      UntaggedStaysUnknown(init, word);
    }
  }

  /** The separator: `/` when the text has one, a backslash otherwise. */
  function Separator(namespace: string): string {
    if Contains(namespace, "/") then "/" else "\\"
  }

  /** The level and version read from a namespace. */
  function ReadNamespace(namespace: string): (r: Result<LevelVersion>)
    ensures r.Ok? ==> -1 <= r.value.level <= 9 && -1 <= r.value.version <= 9
    ensures r.Err? ==> r.error.ValueError?
  {
    ScanParts(Split(namespace, Separator(namespace)))
  }

  const NEITHER_FOUND := "Unable to determine level and version of sbml."

  /** The ontology an sbml namespace adds: `sbml<L,V>` once both are known. */
  function SbmlOntology(lv: LevelVersion): (r: Result<string>)
    ensures r.Ok? <==> lv.level != -1 && lv.version != -1
    ensures lv.level == -1 && lv.version == -1 ==> r == Err(ValueError(NEITHER_FOUND))
    ensures lv.level == -1 && lv.version >= 0 ==> r == Err(ValueError("Unable to determine level of sbml"))
    ensures lv.level >= 0 && lv.version == -1 ==> r == Err(ValueError("Unable to determine version of sbml"))
    ensures r.Ok? && 0 <= lv.level <= 9 && 0 <= lv.version <= 9 ==>
      |r.value| == 9 && r.value[5] == DigitChar(lv.level) && r.value[7] == DigitChar(lv.version)
  {
    if lv.level == -1 && lv.version == -1 then Err(ValueError(NEITHER_FOUND))
    else if lv.level == -1 || lv.version == -1 then
      var missing := if lv.level < 0 then "level" else "version";
      assert "Unable to determine " + "level" + " of sbml" == "Unable to determine level of sbml";
      assert "Unable to determine " + "version" + " of sbml" == "Unable to determine version of sbml";
      Err(ValueError("Unable to determine " + missing + " of sbml"))
    else Ok("sbml<" + IntText(lv.level) + "," + IntText(lv.version) + ">")
  }

  /** The prefix itself is what gets split, so the `sbml` prefix never names a level or
      a version, and every document declaring it fails. */
  lemma SbmlPrefixFails()
    ensures ReadNamespace("sbml") == Ok(LevelVersion(-1, -1))
    ensures SbmlOntology(LevelVersion(-1, -1)) == Err(ValueError(NEITHER_FOUND))
  {
    var p := "sbml";
    assert !Contains(p, "/") by {
      forall i: nat | i <= |p| ensures !OccursAt(p, "/", i) {
        if i < |p| { assert p[i..i + 1][0] == p[i]; }
      }
    }
    SplitWhole(p, "\\");
    assert [p][..0] == [];
    assert !Contains(p, "level") && !Contains(p, "version");
  }

  /** The separator reading works as intended on a path that has both parts: the level
      and the version are the last characters of the parts naming them. */
  lemma LevelVersionExample()
    ensures ReadNamespace("level3/version2") == Ok(LevelVersion(3, 2))
    ensures SbmlOntology(LevelVersion(3, 2)) == Ok("sbml<3,2>")
  {
    ExampleSplit();
    ExampleScan();
    ExampleOntology();
  }

  lemma ExampleOntology()
    ensures SbmlOntology(LevelVersion(3, 2)) == Ok("sbml<3,2>")
  {
    assert IntText(3) == "3" && IntText(2) == "2";
    assert "sbml<" + "3" + "," + "2" + ">" == "sbml<3,2>";
  }

  lemma ExampleSplit()
    ensures Split("level3/version2", Separator("level3/version2")) == ["level3", "version2"]
  {
    var a, b := "level3", "version2";
    assert a + "/" + b == "level3/version2";
    assert OccursAt(a + "/" + b, "/", 6);
    SplitPair(a, b, "/");
  }

  lemma ExampleScan()
    ensures ScanParts(["level3", "version2"]) == Ok(LevelVersion(3, 2))
  {
    var a, b := "level3", "version2";
    var parts := [a, b];
    assert parts[..1] == [a] && [a][..0] == [];
    assert OccursAt(a, "level", 0) && OccursAt(b, "version", 0);
    assert !Contains(a, "version");
    assert !Contains(b, "level") by {
      forall i: nat | i <= |b| ensures !OccursAt(b, "level", i) {
        if i + 5 <= |b| { assert b[i..i + 5][0] == b[i]; assert b[i..i + 5][1] == b[i + 1]; }
      }
    }
    assert DigitValue('3') == 3 && DigitValue('2') == 2;
    assert ScanParts([a]) == Ok(LevelVersion(3, -1));
  }

  /** The namespace loop: starting from `KiSAO`, an `sbml` prefix adds the ontology read
      from it and a `spatial` prefix adds `sim<spatial>`. */
  function Ontologies(prefixes: seq<string>): (r: Result<seq<string>>)
    ensures r.Ok? ==> |r.value| > 0 && r.value[0] == "KiSAO"
    ensures r.Err? ==> r.error.ValueError?
  {
    if prefixes == [] then Ok(["KiSAO"])
    else
      var prev :- Ontologies(prefixes[..|prefixes| - 1]);
      var p := prefixes[|prefixes| - 1];
      if p == "sbml" then
        var lv :- ReadNamespace(p);
        var o :- SbmlOntology(lv);
        Ok(prev + [o])
      else if p == "spatial" then Ok(prev + ["sim<spatial>"])
      else Ok(prev)
  }

  /** The loop succeeds exactly when no prefix is `sbml`; it then gives `KiSAO` followed
      by one `sim<spatial>` per `spatial` prefix. */
  lemma {:induction false} OntologiesOutcome(prefixes: seq<string>)
    ensures Ontologies(prefixes).Ok? <==> "sbml" !in prefixes
    ensures Ontologies(prefixes).Err? ==> Ontologies(prefixes).error == ValueError(NEITHER_FOUND)
    ensures Ontologies(prefixes).Ok? ==>
      |Ontologies(prefixes).value| == 1 + multiset(prefixes)["spatial"] &&
      forall i :: 1 <= i < |Ontologies(prefixes).value| ==> Ontologies(prefixes).value[i] == "sim<spatial>"
  {
    if prefixes != [] {
      var init, p := prefixes[..|prefixes| - 1], prefixes[|prefixes| - 1];
      assert prefixes == init + [p];
      OntologiesOutcome(init);
      if p == "sbml" {
        SbmlPrefixFails();
      }
    }
  }

  /** The separator used on one namespace. */
  method ReadLevelVersion(namespace: string) returns (r: Result<LevelVersion>)
    ensures r == ReadNamespace(namespace)
  {
    var separator := if Contains(namespace, "/") then "/" else "\\";
    var parts := Split(namespace, separator);
    var level, version := -1, -1;
    var i := 0;
    while i < |parts|
      invariant 0 <= i <= |parts|
      invariant ScanParts(parts[..i]) == Ok(LevelVersion(level, version))
    {
      var part := parts[i];
      ScanPartsNext(parts, i, level, version);
      if Contains(part, "level") {
        var d := DigitInt(LastChar(part, "level"));
        if d.Err? {
          ScanFailureSticks(parts, i + 1);
          return Err(d.error);
        }
        level := d.value;
      }
      if Contains(part, "version") {
        var d := DigitInt(LastChar(part, "version"));
        if d.Err? {
          ScanFailureSticks(parts, i + 1);
          return Err(d.error);
        }
        version := d.value;
      }
      i := i + 1;
    }
    assert parts[..i] == parts;
    return Ok(LevelVersion(level, version));
  }

  /** One more part extends the scan as the loop body does. */
  lemma ScanPartsNext(parts: seq<string>, i: nat, level: int, version: int)
    requires i < |parts| && ScanParts(parts[..i]) == Ok(LevelVersion(level, version))
    ensures var part := parts[i];
      ScanParts(parts[..i + 1]) ==
        (var l :- if Contains(part, "level") then DigitInt(LastChar(part, "level")) else Ok(level);
         var v :- if Contains(part, "version") then DigitInt(LastChar(part, "version")) else Ok(version);
         Ok(LevelVersion(l, v)))
  {
    assert parts[..i + 1][..i] == parts[..i];
  }

  lemma {:induction false} ScanFailureSticks(parts: seq<string>, k: nat)
    requires k <= |parts| && ScanParts(parts[..k]).Err?
    ensures ScanParts(parts) == Err(ScanParts(parts[..k]).error)
    decreases |parts| - k
  {
    if k < |parts| {
      assert parts[..k + 1][..k] == parts[..k];
      ScanFailureSticks(parts, k + 1);
    } else {
      assert parts[..k] == parts;
    }
  }

  // ------------------------------------------------------------- the staging object

  /** `proto_sed`: the records gathered for the Sed document. The metadata is never set;
      the declaration, input and output lists are never appended to. */
  class ProtoSed {
    var metadata: Option<Metadata.Metadata>
    var dependencies: seq<Dependency.Dependency>
    var actions: seq<LoadAction.Load>

    constructor ()
      ensures metadata == None && dependencies == [] && actions == []
    {
      metadata := None;
      dependencies := [];
      actions := [];
    }
  }

  // ------------------------------------------------------------- models

  /** The model variable `_convert_models` returns for each model; its bindings are
      always empty. */
  datatype ModelVariable = ModelVariable(name: string, identifier: string, typeName: string)

  const UNKNOWN_MODEL := "Unknown type of model was attempted to be parsed. Only SBML is supported at this time."

  predicate IsSbml(m: Model) {
    Contains(m.language, "language:sbml")
  }

  function DependencyOf(m: Model): Dependency.Dependency {
    Dependency.Dependency("Dependency: `" + m.name + "`", "dep_" + m.id, "sbml::SBMLFile", m.source)
  }

  function LoadOf(m: Model): LoadAction.Load {
    LoadAction.Load("Load Model: " + m.id, "load_" + m.id, "sbml::load_sbml", "dep_" + m.id, m.id)
  }

  function VariableOf(m: Model): ModelVariable {
    ModelVariable(m.name, m.id, "Model<sbml::SBMLFile>")
  }

  function Dependencies(ms: seq<Model>): (ds: seq<Dependency.Dependency>)
    ensures |ds| == |ms| && forall i :: 0 <= i < |ms| ==> ds[i] == DependencyOf(ms[i])
  {
    seq(|ms|, i requires 0 <= i < |ms| => DependencyOf(ms[i]))
  }

  function Loads(ms: seq<Model>): (ls: seq<LoadAction.Load>)
    ensures |ls| == |ms| && forall i :: 0 <= i < |ms| ==> ls[i] == LoadOf(ms[i])
  {
    seq(|ms|, i requires 0 <= i < |ms| => LoadOf(ms[i]))
  }

  function ModelVariables(ms: seq<Model>): (vs: seq<ModelVariable>)
    ensures |vs| == |ms| && forall i :: 0 <= i < |ms| ==> vs[i] == VariableOf(ms[i])
  {
    seq(|ms|, i requires 0 <= i < |ms| => VariableOf(ms[i]))
  }

  /** How many models are converted before the first one that is not SBML. */
  function SbmlRun(models: seq<Model>): (n: nat)
    ensures n <= |models|
    ensures forall i :: 0 <= i < n ==> IsSbml(models[i])
    ensures n < |models| ==> !IsSbml(models[n])
  {
    if models == [] || !IsSbml(models[0]) then 0 else 1 + SbmlRun(models[1..])
  }

  /** `_convert_models`: for each SBML model in turn, a dependency on its file, a model
      variable and a load action; the first model that is not SBML raises, keeping what
      the models before it appended. */
  method ConvertModels(proto: ProtoSed, models: seq<Model>) returns (r: Result<seq<ModelVariable>>)
    modifies proto
    ensures proto.metadata == old(proto.metadata)
    ensures proto.dependencies == old(proto.dependencies) + Dependencies(models[..SbmlRun(models)])
    ensures proto.actions == old(proto.actions) + Loads(models[..SbmlRun(models)])
    ensures r.Ok? <==> SbmlRun(models) == |models|
    ensures r.Ok? ==> r.value == ModelVariables(models)
    ensures r.Err? ==> r.error == ValueError(UNKNOWN_MODEL)
  {
    var variables: seq<ModelVariable> := [];
    var i := 0;
    while i < |models|
      invariant 0 <= i <= |models|
      invariant forall j :: 0 <= j < i ==> IsSbml(models[j])
      invariant proto.metadata == old(proto.metadata)
      invariant proto.dependencies == old(proto.dependencies) + Dependencies(models[..i])
      invariant proto.actions == old(proto.actions) + Loads(models[..i])
      invariant variables == ModelVariables(models[..i])
    {
      var model := models[i];
      if !IsSbml(model) {
        assert SbmlRun(models) == i;
        return Err(ValueError(UNKNOWN_MODEL));
      }
      assert Dependencies(models[..i + 1]) == Dependencies(models[..i]) + [DependencyOf(model)];
      assert Loads(models[..i + 1]) == Loads(models[..i]) + [LoadOf(model)];
      assert ModelVariables(models[..i + 1]) == ModelVariables(models[..i]) + [VariableOf(model)];
      proto.dependencies := proto.dependencies + [DependencyOf(model)];
      variables := variables + [VariableOf(model)];
      proto.actions := proto.actions + [LoadOf(model)];
      i := i + 1;
    }
    assert models[..i] == models;
    assert SbmlRun(models) == |models|;
    return Ok(variables);
  }

  /** The load action reads the dependency by its bare identifier into the model's id;
      pydantic stores both records as given, yet the load's own source check would
      reject that identifier, which has no `#`. */
  lemma ConvertedRecords(m: Model)
    ensures LoadOf(m).source == DependencyOf(m).identifier && LoadOf(m).target == m.id
    ensures Pydantic.Build(Dependency.FIELDS, Dependency.Kwargs(DependencyOf(m))).Ok?
    ensures Pydantic.Build(LoadAction.FIELDS, LoadAction.Kwargs(LoadOf(m))).Ok?
    ensures FieldChecks.MatchSegmentReference("source", LoadOf(m).source) == Err(AssertionError("source"))
  {
    Dependency.BuildSkipsValidators(DependencyOf(m));
    LoadAction.BuildSkipsValidators(LoadOf(m));
  }

  /** Were its validators run, the converted dependency would pass exactly when the
      model's id is made of identifier characters and its source is a plain path. */
  lemma ConvertedDependencyChecked(m: Model)
    ensures Dependency.Validate(DependencyOf(m)).Ok? <==>
      (forall i :: 0 <= i < |m.id| ==> IsIdentChar(m.id[i])) && IsSource(m.source)
  {
    var d := DependencyOf(m);
    QualifiedLiteralIsType("sbml", "SBMLFile");
    assert "sbml" + "::" + "SBMLFile" == d.typeName;
    var id := d.identifier;
    assert id[..4] == "dep_" && id[4..] == m.id;
    if forall i :: 0 <= i < |m.id| ==> IsIdentChar(m.id[i]) {
      forall i | 0 <= i < |id| ensures IsIdentChar(id[i]) {
        if i >= 4 { assert id[i] == m.id[i - 4]; }
      }
    }
    if IsIdentifier(id) {
      forall i | 0 <= i < |m.id| ensures IsIdentChar(m.id[i]) {
        assert id[i + 4] == m.id[i];
      }
    }
  }

  // ------------------------------------------------------------- simulations and tasks

  const NOT_ITERABLE := "'int' object is not iterable"
  const ONLY_TASKS := "Only Repeated and normal Tasks are implemented at this time."
  const NO_ANALYSIS := "SedML Analysis not yet supported"

  /** The type string given to the action built for a time course. */
  function TimeCourseType(spatial: bool): string {
    if spatial then "sim::SpatialSimulation<UTC>" else "sim::NonspatialSimulation<UTC>"
  }

  /** The class the converter builds it with: `UniformTimeCourseSim` for a spatial
      algorithm, `UniformTimeCourseSimSpatial` otherwise. */
  function TimeCourseClass(spatial: bool): SimulationTypes.Kind {
    if spatial then SimulationTypes.Sim else SimulationTypes.SimSpatial
  }

  /** The class and the type string are crossed: each action would be rejected by the
      type check of the class it is built with, were that check registered. */
  lemma TimeCourseClassesCrossed(spatial: bool)
    ensures TimeCourseType(spatial) == SimulationTypes.TypeLiteral(SimulationTypes.UTC, TimeCourseClass(!spatial))
    ensures SimulationTypes.TypeCheck(SimulationTypes.UTC, TimeCourseClass(spatial), TimeCourseType(spatial))
              == Err(AssertionError("type"))
  {
    assert TimeCourseType(spatial) == SimulationTypes.TypeLiteral(SimulationTypes.UTC, TimeCourseClass(!spatial));
    if TimeCourseType(spatial) == SimulationTypes.TypeLiteral(SimulationTypes.UTC, TimeCourseClass(spatial)) {
      SimulationTypes.TypeLiteralsDistinct(SimulationTypes.UTC, TimeCourseClass(!spatial),
                                           SimulationTypes.UTC, TimeCourseClass(spatial));
    }
  }

  /** The parameter assignments of the algorithm, in order. */
  function ParameterPairs(ps: seq<AlgorithmParameter>): (pairs: seq<(string, string)>)
    ensures |pairs| == |ps| && forall i :: 0 <= i < |ps| ==> pairs[i] == (ps[i].kisaoId, ps[i].value)
  {
    seq(|ps|, i requires 0 <= i < |ps| => (ps[i].kisaoId, ps[i].value))
  }

  /** `{param.getKisaoID(): param.getValue() for param in alg_params}`. */
  function AlgorithmParameterDict(ps: seq<AlgorithmParameter>): (d: Dict<string>)
    ensures d.Valid()
  {
    FilledKeys(ParameterPairs(ps), "");
    PutAll(Empty(), ParameterPairs(ps))
  }

  /** Each KiSAO id of the parameters is a key, bound to the value of the last parameter
      with that id. */
  lemma ParameterDictLastWins(ps: seq<AlgorithmParameter>, k: string)
    ensures k in AlgorithmParameterDict(ps).items <==> exists i :: 0 <= i < |ps| && ps[i].kisaoId == k
    ensures forall i :: 0 <= i < |ps| && ps[i].kisaoId == k && (forall j :: i < j < |ps| ==> ps[j].kisaoId != k)
              ==> AlgorithmParameterDict(ps).items[k] == ps[i].value
  {
    var pairs := ParameterPairs(ps);
    FilledKeys(pairs, k);
    if exists i :: 0 <= i < |ps| && ps[i].kisaoId == k {
      var i :| 0 <= i < |ps| && ps[i].kisaoId == k;
      assert pairs[i].0 == k;
    }
    forall i | 0 <= i < |ps| && ps[i].kisaoId == k && (forall j :: i < j < |ps| ==> ps[j].kisaoId != k)
      ensures AlgorithmParameterDict(ps).items[k] == ps[i].value
    {
      assert pairs[i].0 == k;
      LastPairIs(pairs, k, i);
    }
  }

  lemma {:induction false} LastPairIs(pairs: seq<(string, string)>, k: string, i: nat)
    requires i < |pairs| && pairs[i].0 == k && forall j :: i < j < |pairs| ==> pairs[j].0 != k
    ensures LastValue(pairs, k) == Some(pairs[i].1)
    decreases |pairs|
  {
    if i < |pairs| - 1 {
      var init := pairs[..|pairs| - 1];
      assert init[i] == pairs[i];
      LastPairIs(init, k, i);
    }
  }

  /** The dict as the entries of a Python dict value. */
  function ParameterEntries(d: Dict<string>): seq<(string, PyValue)>
    requires d.Valid()
  {
    var vs := d.Values();
    seq(|d.order|, i requires 0 <= i < |d.order| => (d.order[i], PyStr(vs[i])))
  }

  /** The keyword names the converter passes for a time course, in order. */
  const TIME_COURSE_KEYS: seq<string> := ["name", "identifier", "type", "algorithm", "algorithmParameters",
                                          "numDataPoints", "endTime", "startTime", "outputStartTime"]

  /** `model` is not among them: no keyword name starts with an `m`. */
  lemma ModelNotTimeCourseKey()
    ensures "model" !in TIME_COURSE_KEYS
  {
    var names := TIME_COURSE_KEYS;
    assert |names| == 9;
    forall i | 0 <= i < |names| ensures names[i] != "model" {
      assert names[i][0] != 'm';
    }
  }

  /** The keyword arguments the converter passes for a time course of a plain task. */
  function TimeCourseKwargs(task: Task, sim: Simulation): (r: seq<(string, PyValue)>)
    requires task.PlainTask? && sim.kind.UniformTimeCourse?
    ensures |r| == |TIME_COURSE_KEYS| && forall i :: 0 <= i < |r| ==> r[i].0 == TIME_COURSE_KEYS[i]
    ensures "model" !in Keys(r)
  {
    var params := AlgorithmParameterDict(sim.algorithm.parameters);
    var r := [("name", PyStr(task.name + "(" + sim.name + ")")),
     ("identifier", PyStr(task.id)),
     ("type", PyStr(TimeCourseType(IsSpatial(sim.algorithm.kisaoId)))),
     ("algorithm", PyStr(sim.algorithm.kisaoId)),
     ("algorithmParameters", PyDict(ParameterEntries(params))),
     ("numDataPoints", PyInt(sim.kind.numberOfPoints)),
     ("endTime", PyFloat(sim.kind.outputEndTime)),
     ("startTime", PyFloat(sim.kind.initialTime)),
     ("outputStartTime", PyFloat(sim.kind.outputStartTime))];
    assert r[0].0 == "name" && r[1].0 == "identifier" && r[2].0 == "type";
    assert r[3].0 == "algorithm" && r[4].0 == "algorithmParameters" && r[5].0 == "numDataPoints";
    assert r[6].0 == "endTime" && r[7].0 == "startTime" && r[8].0 == "outputStartTime";
    ModelNotTimeCourseKey();
    r
  }

  /** Building the time-course action: no `model` is passed, so pydantic rejects every
      such action before it can be appended. */
  function TimeCourseAction(task: Task, sim: Simulation): (r: Result<seq<(string, PyValue)>>)
    requires task.PlainTask? && sim.kind.UniformTimeCourse?
    ensures r == Err(MissingField("model"))
  {
    var kw := TimeCourseKwargs(task, sim);
    TimeCourseModelMissing(task, sim);
    Pydantic.Build(UniformTimeCourse.FIELDS, kw)
  }

  lemma TimeCourseModelMissing(task: Task, sim: Simulation)
    requires task.PlainTask? && sim.kind.UniformTimeCourse?
    ensures Pydantic.Build(UniformTimeCourse.FIELDS, TimeCourseKwargs(task, sim)) == Err(MissingField("model"))
  {
    var kw := TimeCourseKwargs(task, sim);
    FirstThreeSupplied(task, sim);
    ModelReported(kw);
  }

  /** Arguments giving text for the three fields before `model`, and no `model`. */
  lemma ModelReported(kw: seq<(string, PyValue)>)
    requires Pydantic.SuppliesText(kw, "name") && Pydantic.SuppliesText(kw, "identifier")
    requires Pydantic.SuppliesText(kw, "type")
    requires "model" !in Keys(kw)
    ensures Pydantic.Build(UniformTimeCourse.FIELDS, kw) == Err(MissingField("model"))
  {
    LeadingFields();
    Pydantic.FourthMissing(UniformTimeCourse.FIELDS, kw);
  }

  /** The first four fields of the time-course action are required `str` fields, with
      `model` fourth. */
  lemma LeadingFields()
    ensures var fields := UniformTimeCourse.FIELDS;
      && fields[0] == Pydantic.Field("name", Pydantic.StrField, Pydantic.Required)
      && fields[1] == Pydantic.Field("identifier", Pydantic.StrField, Pydantic.Required)
      && fields[2] == Pydantic.Field("type", Pydantic.StrField, Pydantic.Required)
      && fields[3] == Pydantic.Field("model", Pydantic.StrField, Pydantic.Required)
  {
  }

  /** The converter passes name, identifier and type as strings. */
  lemma FirstThreeSupplied(task: Task, sim: Simulation)
    requires task.PlainTask? && sim.kind.UniformTimeCourse?
    ensures Pydantic.SuppliesText(TimeCourseKwargs(task, sim), "name")
    ensures Pydantic.SuppliesText(TimeCourseKwargs(task, sim), "identifier")
    ensures Pydantic.SuppliesText(TimeCourseKwargs(task, sim), "type")
  {
    var kw := TimeCourseKwargs(task, sim);
    LeadingKeySupplied(kw, 0);
    LeadingKeySupplied(kw, 1);
    LeadingKeySupplied(kw, 2);
  }

  /** An entry among the first three of the converter's arguments is looked up by its key. */
  lemma LeadingKeySupplied(kw: seq<(string, PyValue)>, i: nat)
    requires |kw| == |TIME_COURSE_KEYS| && forall j :: 0 <= j < |kw| ==> kw[j].0 == TIME_COURSE_KEYS[j]
    requires i < 3 && kw[i].1.PyStr?
    ensures Pydantic.SuppliesText(kw, kw[i].0)
  {
    forall j | i < j < |kw| ensures kw[j].0 != kw[i].0 {
      assert kw[j].0[0] != kw[i].0[0] || |kw[j].0| != |kw[i].0|;
    }
    LookupLastEntry(kw, i);
  }

  /** Handling one simulation the plain task refers to. */
  function SimStep(task: Task, sim: Simulation): (r: Result<()>)
    requires task.PlainTask?
    ensures r.Ok? <==> !sim.kind.Analysis? && !sim.kind.UniformTimeCourse?
    ensures sim.kind.Analysis? ==> r == Err(NotImplementedError(NO_ANALYSIS))
    ensures sim.kind.UniformTimeCourse? ==> r == Err(MissingField("model"))
  {
    if sim.kind.Analysis? then Err(NotImplementedError(NO_ANALYSIS))
    else if sim.kind.UniformTimeCourse? then Err(TimeCourseAction(task, sim).error)
    else Ok(())
  }

  /** The inner loop of `_convert_sims` over the simulations, stopping at the first that
      raises. */
  function SimsOutcome(task: Task, sims: seq<Simulation>): (r: Result<()>)
    requires task.PlainTask?
    ensures r.Err? ==> r.error in {NotImplementedError(NO_ANALYSIS), MissingField("model")}
    ensures r.Err? ==> exists k :: FirstFailingSim(task, sims, k) && r == SimStep(task, sims[k])
  {
    if sims == [] then Ok(())
    else
      var step := if sims[0].id == task.simRef then SimStep(task, sims[0]) else Ok(());
      if step.Err? then
        assert FirstFailingSim(task, sims, 0);
        Err(step.error)
      else
        var r := SimsOutcome(task, sims[1..]);
        if r.Err? then
          var k :| FirstFailingSim(task, sims[1..], k) && r == SimStep(task, sims[1..][k]);
          assert forall j :: 1 <= j <= k ==> sims[j] == sims[1..][j - 1];
          assert FirstFailingSim(task, sims, k + 1);
          r
        else r
  }

  /** `sims[k]` is the first simulation the task refers to whose handling raises: the
      inner loop stops there. */
  predicate FirstFailingSim(task: Task, sims: seq<Simulation>, k: int)
    requires task.PlainTask?
  {
    0 <= k < |sims| && sims[k].id == task.simRef && SimStep(task, sims[k]).Err? &&
    forall j :: 0 <= j < k && sims[j].id == task.simRef ==> SimStep(task, sims[j]).Ok?
  }

  /** Handling one task: a repeated task fails at once by iterating over an int, any
      other kind of task than a plain one is refused, and a plain task goes through the
      simulations it refers to. */
  function TaskOutcome(task: Task, sims: seq<Simulation>): (r: Result<()>)
    ensures r.Err? ==> r.error in SIMS_ERRORS
    ensures r.Ok? <==> Handled(task, sims)
    ensures task.RepeatedTask? ==> r == Err(TypeError(NOT_ITERABLE))
    ensures !task.PlainTask? && !task.RepeatedTask? ==> r == Err(NotImplementedError(ONLY_TASKS))
    ensures task.PlainTask? && r.Err? ==> exists k :: FirstFailingSim(task, sims, k) && r == SimStep(task, sims[k])
  {
    if task.RepeatedTask? then Err(TypeError(NOT_ITERABLE))
    else if !task.PlainTask? then Err(NotImplementedError(ONLY_TASKS))
    else
      SimsOutcomeOk(task, sims);
      SimsOutcome(task, sims)
  }

  /** The errors handling the tasks can raise. */
  const SIMS_ERRORS: set<Error> :=
    {TypeError(NOT_ITERABLE), NotImplementedError(ONLY_TASKS), NotImplementedError(NO_ANALYSIS), MissingField("model")}

  /** `_convert_sims` over every task in turn. */
  function SimsConversion(sims: seq<Simulation>, tasks: seq<Task>): (r: Result<()>)
    ensures r.Err? ==> r.error in SIMS_ERRORS
  {
    if tasks == [] then Ok(())
    else
      var _ :- TaskOutcome(tasks[0], sims);
      SimsConversion(sims, tasks[1..])
  }

  /** A task the conversion gets through: a plain task none of whose simulations is an
      analysis or a uniform time course. */
  predicate Handled(task: Task, sims: seq<Simulation>) {
    task.PlainTask? &&
    forall j :: 0 <= j < |sims| && sims[j].id == task.simRef ==>
      !sims[j].kind.Analysis? && !sims[j].kind.UniformTimeCourse?
  }

  lemma {:induction false} SimsOutcomeOk(task: Task, sims: seq<Simulation>)
    requires task.PlainTask?
    ensures SimsOutcome(task, sims).Ok? <==> Handled(task, sims)
  {
    if sims != [] {
      SimsOutcomeOk(task, sims[1..]);
      assert forall j :: 1 <= j < |sims| ==> sims[j] == sims[1..][j - 1];
    }
  }

  /** The conversion of the tasks succeeds exactly when every task is handled, and then
      nothing is appended; otherwise it raises one of four errors. */
  lemma {:induction false} SimsConversionOutcome(sims: seq<Simulation>, tasks: seq<Task>)
    ensures SimsConversion(sims, tasks).Ok? <==> forall i :: 0 <= i < |tasks| ==> Handled(tasks[i], sims)
    ensures SimsConversion(sims, tasks).Err? ==>
      SimsConversion(sims, tasks).error in
        {TypeError(NOT_ITERABLE), NotImplementedError(ONLY_TASKS), NotImplementedError(NO_ANALYSIS), MissingField("model")}
  {
    if tasks != [] {
      SimsConversionOutcome(sims, tasks[1..]);
      assert forall i :: 1 <= i < |tasks| ==> tasks[i] == tasks[1..][i - 1];
      if tasks[0].PlainTask? {
        SimsOutcomeOk(tasks[0], sims);
      }
    }
  }

  /** A repeated task anywhere before every unhandled task decides the error. */
  lemma {:induction false} FirstUnhandledDecides(sims: seq<Simulation>, tasks: seq<Task>, k: nat)
    requires k < |tasks| && forall i :: 0 <= i < k ==> Handled(tasks[i], sims)
    requires !Handled(tasks[k], sims)
    ensures SimsConversion(sims, tasks) == TaskOutcome(tasks[k], sims)
    ensures tasks[k].RepeatedTask? ==> SimsConversion(sims, tasks) == Err(TypeError(NOT_ITERABLE))
    decreases k
  {
    if k > 0 {
      HandledSkipped(sims, tasks);
      assert forall i :: 0 <= i < k - 1 ==> tasks[1..][i] == tasks[i + 1];
      FirstUnhandledDecides(sims, tasks[1..], k - 1);
    } else if tasks[0].PlainTask? {
      SimsOutcomeOk(tasks[0], sims);
    }
  }

  /** A handled first task leaves the conversion to the remaining tasks. */
  lemma HandledSkipped(sims: seq<Simulation>, tasks: seq<Task>)
    requires tasks != [] && Handled(tasks[0], sims)
    ensures SimsConversion(sims, tasks) == SimsConversion(sims, tasks[1..])
  {
    SimsOutcomeOk(tasks[0], sims);
    UnitOk(TaskOutcome(tasks[0], sims));
  }

  /** `_convert_sims`. Nothing it would append is ever appended: a repeated task fails
      before its looped simulation is built, and a time course fails while its action is
      built. */
  method ConvertSims(sims: seq<Simulation>, tasks: seq<Task>) returns (r: Result<()>)
    ensures r == SimsConversion(sims, tasks)
  {
    var i := 0;
    while i < |tasks|
      invariant 0 <= i <= |tasks|
      invariant SimsConversion(sims, tasks) == SimsConversion(sims, tasks[i..])
    {
      var task := tasks[i];
      assert tasks[i..][0] == task && tasks[i..][1..] == tasks[i + 1..];
      if task.RepeatedTask? {
        return Err(TypeError(NOT_ITERABLE));
      }
      if !task.PlainTask? {
        return Err(NotImplementedError(ONLY_TASKS));
      }
      var j := 0;
      while j < |sims|
        invariant 0 <= j <= |sims|
        invariant SimsOutcome(task, sims) == SimsOutcome(task, sims[j..])
      {
        var sim := sims[j];
        assert sims[j..][0] == sim && sims[j..][1..] == sims[j + 1..];
        if sim.id == task.simRef {
          if sim.kind.Analysis? {
            return Err(NotImplementedError(NO_ANALYSIS));
          }
          if sim.kind.UniformTimeCourse? {
            var built := TimeCourseAction(task, sim);
            return Err(built.error);
          }
        }
        j := j + 1;
      }
      assert sims[j..] == [];
      i := i + 1;
    }
    assert tasks[i..] == [];
    r := Ok(());
  }

  // ------------------------------------------------------------- the whole conversion

  /** What `convert_to_sed` ends with: the namespaces first, then the models, then the
      tasks; `Ok(())` stands for the `None` it returns. */
  function Conversion(prefixes: seq<string>, models: seq<Model>, sims: seq<Simulation>, tasks: seq<Task>): (r: Result<()>)
    ensures r.Err? ==> r.error.ValueError? || r.error in SIMS_ERRORS
  {
    var _ :- Ontologies(prefixes);
    if SbmlRun(models) < |models| then Err(ValueError(UNKNOWN_MODEL))
    else SimsConversion(sims, tasks)
  }

  /** The conversion returns only when no prefix is `sbml`, every model is SBML and every
      task is handled; an `sbml` prefix decides the error before anything else. */
  lemma ConversionOutcome(prefixes: seq<string>, models: seq<Model>, sims: seq<Simulation>, tasks: seq<Task>)
    ensures Conversion(prefixes, models, sims, tasks).Ok? <==>
      "sbml" !in prefixes && (forall i :: 0 <= i < |models| ==> IsSbml(models[i])) &&
      (forall i :: 0 <= i < |tasks| ==> Handled(tasks[i], sims))
    ensures "sbml" in prefixes ==> Conversion(prefixes, models, sims, tasks) == Err(ValueError(NEITHER_FOUND))
  {
    OntologiesOutcome(prefixes);
    SimsConversionOutcome(sims, tasks);
  }

  /** `convert_to_sed` on a processed document: the ontologies are gathered (and then
      dropped), the models of the model table are converted, then the tasks of the task
      table against the simulation table. The staging object and the ontologies are
      given back so that their final state can be stated. */
  method ConvertToSed(doc: SedMLDocument) returns (r: Result<()>, proto: ProtoSed, ontologies: seq<string>)
    requires doc.Valid()
    ensures fresh(proto) && proto.metadata == None
    ensures r == Conversion(doc.sedml.namespacePrefixes, doc.modelDict.Values(),
                            doc.simulationDict.Values(), doc.taskDict.Values())
    ensures Ontologies(doc.sedml.namespacePrefixes).Err? ==> proto.dependencies == [] && proto.actions == []
    ensures Ontologies(doc.sedml.namespacePrefixes).Ok? ==>
      var models := doc.modelDict.Values();
      && ontologies == Ontologies(doc.sedml.namespacePrefixes).value
      && proto.dependencies == Dependencies(models[..SbmlRun(models)])
      && proto.actions == Loads(models[..SbmlRun(models)])
  {
    proto := new ProtoSed();
    ontologies := ["KiSAO"];
    var prefixes := doc.sedml.namespacePrefixes;
    var i := 0;
    while i < |prefixes|
      invariant 0 <= i <= |prefixes|
      invariant Ontologies(prefixes[..i]) == Ok(ontologies)
      invariant proto.metadata == None && proto.dependencies == [] && proto.actions == []
    {
      var namespace := prefixes[i];
      assert prefixes[..i + 1][..i] == prefixes[..i];
      if namespace == "sbml" {
        var lv := ReadLevelVersion(namespace);
        if lv.Err? {
          OntologiesFailureSticks(prefixes, i + 1);
          return Err(lv.error), proto, ontologies;
        }
        var o := SbmlOntology(lv.value);
        if o.Err? {
          OntologiesFailureSticks(prefixes, i + 1);
          return Err(o.error), proto, ontologies;
        }
        ontologies := ontologies + [o.value];
      }
      if namespace == "spatial" {
        ontologies := ontologies + ["sim<spatial>"];
      }
      i := i + 1;
    }
    assert prefixes[..i] == prefixes;
    var models := doc.modelDict.Values();
    var converted := ConvertModels(proto, models);
    if converted.Err? {
      return Err(converted.error), proto, ontologies;
    }
    r := ConvertSims(doc.simulationDict.Values(), doc.taskDict.Values());
  }

  lemma {:induction false} OntologiesFailureSticks(prefixes: seq<string>, k: nat)
    requires k <= |prefixes| && Ontologies(prefixes[..k]).Err?
    ensures Ontologies(prefixes) == Err(Ontologies(prefixes[..k]).error)
    decreases |prefixes| - k
  {
    if k < |prefixes| {
      assert prefixes[..k + 1][..k] == prefixes[..k];
      OntologiesFailureSticks(prefixes, k + 1);
    } else {
      assert prefixes[..k] == prefixes;
    }
  }
}
