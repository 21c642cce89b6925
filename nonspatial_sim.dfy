/** The nonspatial simulation records of the newer snapshot
    (src/sed_tooling/sed_model/nonspatial_sim.py). Each overrides the type validator with a
    pattern that wraps the type pattern in a fixed head and a closing `>`, handed to the
    `regex` module. There `(?R)` re-enters the whole wrapped pattern, so every argument of
    a parameterised type must itself carry the head. Like the other records of that
    snapshot, the validators are never registered when a record is built. */
module NonspatialSim {
  import opened Outcomes
  import opened PyText
  import opened Patterns
  import opened FieldChecks

  const SIM_HEAD: string := "sim::NonspatialSimulation<"
  const COSIM_HEAD: string := "cosim::NonspatialSimulation<"

  /** `NonspatialSimulationSim.type_must_be_properly_formed`. */
  function SimType(v: string): (r: Result<string>)
    ensures r.Ok? <==> Matches(Wrapped(SIM_HEAD), v)
    ensures r.Ok? ==> r.value == v && StartsWith(v, SIM_HEAD) && v[|v| - 1] == '>'
    ensures r.Err? ==> r.error == AssertionError("type")
  {
    RegexType(Wrapped(SIM_HEAD), SIM_HEAD + TYPE_PATTERN + ">", "type", v)
  }

  /** `NonspatialSimulationCosim.type_must_be_properly_formed`. */
  function CosimType(v: string): (r: Result<string>)
    ensures r.Ok? <==> Matches(Wrapped(COSIM_HEAD), v)
    ensures r.Ok? ==> r.value == v && StartsWith(v, COSIM_HEAD) && v[|v| - 1] == '>'
    ensures r.Err? ==> r.error == AssertionError("type")
  {
    RegexType(Wrapped(COSIM_HEAD), COSIM_HEAD + TYPE_PATTERN + ">", "type", v)
  }

  /** No type passes both validators: the heads differ in their first character. */
  lemma SimAndCosimDisjoint(v: string)
    ensures SimType(v).Ok? ==> CosimType(v).Err?
  {
    if SimType(v).Ok? {
      assert v[0] == SIM_HEAD[0];
    }
  }

  /** A plain name between the head and the closing `>` fits the wrapped grammar. */
  lemma NameInHeadAccepted(w: string, name: string)
    requires IsIdentifier(name)
    ensures Matches(Wrapped(w), w + name + ">")
  {
    var v := w + name + ">";
    assert v[..|w|] == w;
    assert v[|w|..|v| - 1] == name;
    assert IsSegment(name[..|name|]) && name[..|name|][|name|..] == [];
    assert IsQualifiedName(name[..|name|]);
    assert Body(Wrapped(w), name);
  }

  /** `sim::NonspatialSimulation<UTC>` is accepted. */
  lemma UtcAccepted()
    ensures SimType("sim::NonspatialSimulation<UTC>") == Ok("sim::NonspatialSimulation<UTC>")
  {
    assert IsIdentifier("UTC");
    NameInHeadAccepted(SIM_HEAD, "UTC");
    assert SIM_HEAD + "UTC" + ">" == "sim::NonspatialSimulation<UTC>";
  }

  /** The cosimulation form is rejected by the simulation validator, and a type without
      its closing `>` by both. */
  lemma WrongHeadRejected()
    ensures SimType("cosim::NonspatialSimulation<UTC>").Err?
    ensures SimType("sim::NonspatialSimulation<UTC").Err?
  {
    assert "cosim::NonspatialSimulation<UTC>"[0] != SIM_HEAD[0];
    var u := "sim::NonspatialSimulation<UTC";
    assert u[|u| - 1] != '>';
  }

  /** A qualified name never holds a comma. */
  lemma QualifiedNameNoComma(q: string, k: nat)
    requires IsQualifiedName(q) && k < |q|
    ensures q[k] != ','
  {
    var h := QualifiedNameShape(q);
    if k < h { assert q[..h][k] == q[k]; }
  }

  /** `A<B,C>` is a type on its own, but not inside the head: `(?R)` makes each argument
      re-enter the wrapped pattern, and `B` does not start with the head. */
  lemma BareArgumentsRejected()
    ensures Matches(Generic, "A<B,C>")
    ensures SimType("sim::NonspatialSimulation<A<B,C>>").Err?
  {
    BareArgumentsGeneric();
    var g := Wrapped(SIM_HEAD);
    var v := "sim::NonspatialSimulation<A<B,C>>";
    var s := "A<B,C>";
    assert v[|SIM_HEAD|..|v| - 1] == s;
    if Body(g, s) {
      var j :| 0 < j <= |s| && IsQualifiedName(s[..j]) && (j == |s| || Args(g, s[j..]));
      if j > 3 {
        QualifiedNameNoComma(s[..j], 3);
      } else if j == 1 {
        var q := s[2..5];
        assert s[j..][1..|s[j..]| - 1] == q;
        var i := ArgListStartsWithPrefix(SIM_HEAD, q);
      }
    }
  }

  lemma BareArgumentsGeneric()
    ensures Matches(Generic, "A<B,C>")
  {
    BareArgumentParts();
    IdentifierIsType("B");
    IdentifierIsType("C");
    CommaPair(Generic, "B", "C");
    assert "B" + "," + "C" == "B,C";
    SegmentWithArguments("A", "B,C");
    assert "A" + "<" + "B,C" + ">" == "A<B,C>";
  }

  lemma BareArgumentParts()
    ensures IsSegment("A") && IsIdentifier("B") && IsIdentifier("C")
  {
  }
}
