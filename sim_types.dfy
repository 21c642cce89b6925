/** The simulation records whose type is one fixed string: the uniform time course
    (src/sed_tooling/sed_model/uniform_time_course.py), the steady state (steady_state.py)
    and the one-step simulation (one_step.py), each in four kinds, spatial or not,
    simulation or cosimulation. Each class overrides the type validator of its parent
    with a whole-string match of one literal; `re` and `regex` treat such a literal alike. */
module SimulationTypes {
  import opened Outcomes
  import opened Patterns
  import opened FieldChecks
  import NonspatialSim
  import Simulation

  datatype Scheme = UTC | SteadyState | OneStep

  /** `…Sim`, `…SimSpatial`, `…Cosim` and `…CosimSpatial`. */
  datatype Kind = Sim | SimSpatial | Cosim | CosimSpatial

  function SchemeName(s: Scheme): string {
    match s
    case UTC => "UTC"
    case SteadyState => "SteadyState"
    case OneStep => "OneStep"
  }

  function Head(k: Kind): string {
    match k
    case Sim => NonspatialSim.SIM_HEAD
    case SimSpatial => "sim::SpatialSimulation<"
    case Cosim => NonspatialSim.COSIM_HEAD
    case CosimSpatial => "cosim::SpatialSimulation<"
  }

  /** The one type string the class of scheme `s` and kind `k` accepts, such as
      `sim::NonspatialSimulation<SteadyState>`. */
  function TypeLiteral(s: Scheme, k: Kind): string {
    Head(k) + SchemeName(s) + ">"
  }

  /** `type_must_be_properly_formed` of the class of scheme `s` and kind `k`. */
  function TypeCheck(s: Scheme, k: Kind, v: string): (r: Result<string>)
    ensures r.Ok? <==> v == TypeLiteral(s, k)
    ensures r.Ok? ==> r.value == v
    ensures r.Err? ==> r.error == AssertionError("type")
  {
    ExactType(TypeLiteral(s, k), v)
  }

  /** The twelve literals are pairwise different: no type string is accepted by two of
      the classes. */
  lemma TypeLiteralsDistinct(s1: Scheme, k1: Kind, s2: Scheme, k2: Kind)
    requires TypeLiteral(s1, k1) == TypeLiteral(s2, k2)
    ensures s1 == s2 && k1 == k2
  {
    KindsDistinct(s1, k1, s2, k2);
    var v, h := TypeLiteral(s1, k1), Head(k1);
    var n1, n2 := SchemeName(s1), SchemeName(s2);
    assert v[|h|] == n1[0] == n2[0];
  }

  /** The heads differ at their first, sixth or eighth character. */
  lemma KindsDistinct(s1: Scheme, k1: Kind, s2: Scheme, k2: Kind)
    requires TypeLiteral(s1, k1) == TypeLiteral(s2, k2)
    ensures k1 == k2
  {
    LiteralMarked(s1, k1);
    LiteralMarked(s2, k2);
    MarkInjective(k1, k2);
  }

  /** The first, sixth and eighth characters of a head, which tell the kinds apart. */
  function Mark(k: Kind): string {
    match k
    case Sim => "sNn"
    case SimSpatial => "sSa"
    case Cosim => "c:N"
    case CosimSpatial => "c:S"
  }

  lemma MarkInjective(k1: Kind, k2: Kind)
    requires Mark(k1) == Mark(k2)
    ensures k1 == k2
  {
    assert Mark(k1)[0] == Mark(k2)[0] && Mark(k1)[1] == Mark(k2)[1] && Mark(k1)[2] == Mark(k2)[2];
  }

  lemma LiteralMarked(s: Scheme, k: Kind)
    ensures |TypeLiteral(s, k)| > 7
    ensures [TypeLiteral(s, k)[0], TypeLiteral(s, k)[5], TypeLiteral(s, k)[7]] == Mark(k)
  {
    var h := Head(k);
    assert |h| > 7 && [h[0], h[5], h[7]] == Mark(k);
    assert TypeLiteral(s, k)[..8] == h[..8];
  }

  /** Each literal also passes the check each class overrides: the literals of the
      nonspatial kinds are accepted by the nonspatial type validators. */
  lemma NonspatialLiteralsAccepted(s: Scheme)
    ensures NonspatialSim.SimType(TypeLiteral(s, Sim)).Ok?
    ensures NonspatialSim.CosimType(TypeLiteral(s, Cosim)).Ok?
  {
    var n := SchemeName(s);
    assert IsIdentifier(n);
    NonspatialSim.NameInHeadAccepted(NonspatialSim.SIM_HEAD, n);
    NonspatialSim.NameInHeadAccepted(NonspatialSim.COSIM_HEAD, n);
  }

  /** Every validator of a steady-state or one-step record in field order: `legal_id` of
      `Action`, the class's own type check, then the `Simulation` checks. These classes
      add no field of their own. Every exception they raise is one pydantic collects, so
      the first failing field is reported; when all pass, the text the parameters were
      rewritten to is given back. */
  function ValidateFixed(s: Scheme, k: Kind, x: Simulation.Simulation): (r: Result<Option<string>>)
    requires s != UTC
    requires x.algorithmParameters.Some? ==> x.algorithmParameters.value.Valid()
    ensures r.Ok? <==>
      && IsIdentifier(x.identifier) && x.typeName == TypeLiteral(s, k)
      && MatchReference("model", x.model).Ok?
      && Simulation.LegalAlgorithm(x.algorithm).Ok?
      && Simulation.LegalParameters(x.algorithmParameters).Ok?
    ensures r.Ok? ==> r.value == Simulation.LegalParameters(x.algorithmParameters).value
    ensures r.Err? ==> r.error.IsCollected()
    ensures !IsIdentifier(x.identifier) ==> r == Err(AssertionError("identifier"))
    ensures IsIdentifier(x.identifier) && x.typeName != TypeLiteral(s, k) ==> r == Err(AssertionError("type"))
  {
    var id := FullmatchIdentifier(Stdlib, "identifier", x.identifier);
    var ty := TypeCheck(s, k, x.typeName);
    var model := MatchReference("model", x.model);
    var algorithm := Simulation.LegalAlgorithm(x.algorithm);
    var params := Simulation.LegalParameters(x.algorithmParameters);
    if id.Err? then Err(id.error)
    else if ty.Err? then Err(ty.error)
    else if model.Err? then Err(model.error)
    else if algorithm.Err? then Err(algorithm.error)
    else if params.Err? then Err(params.error)
    else Ok(params.value)
  }
}
