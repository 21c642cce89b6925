/** The plot records of the newer snapshot (src/sed_tooling/sed_model/plots.py). `Curve`
    and `Surface` are actions whose validators use the `regex` module; `Plot2D` and
    `Plot3D` are plain classes, so their validators are never called by anything. Each
    validator is modelled as the function it is; building a record registers none of
    them. */
module Plots {
  import opened Outcomes
  import opened PyValues
  import opened Patterns
  import opened FieldChecks
  import Pydantic

  const CURVE_TYPE: string := "plot::curve"
  const SURFACE_TYPE: string := "plot::surface"
  const PLOT_2D_TYPE: string := "plot::2DPlot"
  const PLOT_3D_TYPE: string := "plot::3DPlot"

  datatype Curve = Curve(
    name: string, identifier: string, typeName: string, sims: seq<string>,
    xAxis: string, yAxis: string)

  datatype Surface = Surface(
    name: string, identifier: string, typeName: string, sims: seq<string>,
    xAxis: string, yAxis: string, zAxis: string)

  const CURVE_FIELDS: seq<Pydantic.Field> := [
    Pydantic.Field("name", Pydantic.StrField, Pydantic.Required),
    Pydantic.Field("identifier", Pydantic.StrField, Pydantic.Required),
    Pydantic.Field("type", Pydantic.StrField, Pydantic.Required),
    Pydantic.Field("sims", Pydantic.StrListField, Pydantic.Required),
    Pydantic.Field("x_axis", Pydantic.StrField, Pydantic.Required),
    Pydantic.Field("y_axis", Pydantic.StrField, Pydantic.Required)
  ]

  const SURFACE_FIELDS: seq<Pydantic.Field> := [
    Pydantic.Field("name", Pydantic.StrField, Pydantic.Required),
    Pydantic.Field("identifier", Pydantic.StrField, Pydantic.Required),
    Pydantic.Field("type", Pydantic.StrField, Pydantic.Required),
    Pydantic.Field("sims", Pydantic.StrListField, Pydantic.Required),
    Pydantic.Field("x_axis", Pydantic.StrField, Pydantic.Required),
    Pydantic.Field("y_axis", Pydantic.StrField, Pydantic.Required),
    Pydantic.Field("z_axis", Pydantic.StrField, Pydantic.Required)
  ]

  /** The keyword arguments that spell out a curve. */
  function CurveKwargs(c: Curve): seq<(string, PyValue)> {
    [("name", PyStr(c.name)), ("identifier", PyStr(c.identifier)), ("type", PyStr(c.typeName)),
     ("sims", Pydantic.TextList(c.sims)), ("x_axis", PyStr(c.xAxis)), ("y_axis", PyStr(c.yAxis))]
  }

  /** The keyword arguments that spell out a surface. */
  function SurfaceKwargs(s: Surface): seq<(string, PyValue)> {
    [("name", PyStr(s.name)), ("identifier", PyStr(s.identifier)), ("type", PyStr(s.typeName)),
     ("sims", Pydantic.TextList(s.sims)), ("x_axis", PyStr(s.xAxis)), ("y_axis", PyStr(s.yAxis)),
     ("z_axis", PyStr(s.zAxis))]
  }

  /** Each of the four type validators accepts exactly its own literal: every literal is
      itself a type, so the check against the type pattern never decides. */
  lemma PlotTypes(v: string)
    ensures LiteralType(CURVE_TYPE, v).Ok? <==> v == CURVE_TYPE
    ensures LiteralType(SURFACE_TYPE, v).Ok? <==> v == SURFACE_TYPE
    ensures LiteralType(PLOT_2D_TYPE, v).Ok? <==> v == PLOT_2D_TYPE
    ensures LiteralType(PLOT_3D_TYPE, v).Ok? <==> v == PLOT_3D_TYPE
  {
    CurveTypeParts();
    QualifiedLiteralType("plot", "curve", v);
    SurfaceTypeParts();
    QualifiedLiteralType("plot", "surface", v);
    Plot2DTypeParts();
    QualifiedLiteralType("plot", "2DPlot", v);
    Plot3DTypeParts();
    QualifiedLiteralType("plot", "3DPlot", v);
  }

  lemma CurveTypeParts()
    ensures IsIdentifier("plot") && IsIdentifier("curve") && "plot" + "::" + "curve" == CURVE_TYPE
  {
  }

  lemma SurfaceTypeParts()
    ensures IsIdentifier("plot") && IsIdentifier("surface") && "plot" + "::" + "surface" == SURFACE_TYPE
  {
  }

  lemma Plot2DTypeParts()
    ensures IsIdentifier("plot") && IsIdentifier("2DPlot") && "plot" + "::" + "2DPlot" == PLOT_2D_TYPE
  {
  }

  lemma Plot3DTypeParts()
    ensures IsIdentifier("plot") && IsIdentifier("3DPlot") && "plot" + "::" + "3DPlot" == PLOT_3D_TYPE
  {
  }

  /** Every entry of a list of strings is a whole reference. */
  predicate AllReferences(xs: seq<string>) {
    forall i :: 0 <= i < |xs| ==> IsReference(xs[i])
  }

  /** `check_sims`: each simulation named is a whole reference; the list is kept. */
  function CheckSims(sims: seq<string>): (r: Result<seq<string>>)
    ensures r.Ok? <==> AllReferences(sims)
    ensures r.Ok? ==> r.value == sims
    ensures r.Err? ==> r.error == AssertionError("sims")
  {
    if sims == [] then Ok(sims)
    else
      var _ :- FullmatchReference(RegexModule, "sims", sims[0]);
      var _ :- CheckSims(sims[1..]);
      assert forall i :: 1 <= i < |sims| ==> sims[i] == sims[1..][i - 1];
      Ok(sims)
  }

  /** The validators of a curve in field order: `legal_id` of `Action`, the type,
      `check_sims` and `check_axes` for both axes. A curve passes exactly when all of
      them accept it, and it is then kept as it is; otherwise the first failing field is
      reported. */
  function ValidateCurve(c: Curve): (r: Result<Curve>)
    ensures r.Ok? <==>
      && IsIdentifier(c.identifier) && c.typeName == CURVE_TYPE && AllReferences(c.sims)
      && IsReference(c.xAxis) && IsReference(c.yAxis)
    ensures r.Ok? ==> r.value == c
    ensures r.Err? ==> r.error.AssertionError?
    ensures !IsIdentifier(c.identifier) ==> r == Err(AssertionError("identifier"))
    ensures IsIdentifier(c.identifier) && c.typeName != CURVE_TYPE ==> r == Err(AssertionError("type"))
  {
    PlotTypes(c.typeName);
    var _ :- FullmatchIdentifier(Stdlib, "identifier", c.identifier);
    var _ :- LiteralType(CURVE_TYPE, c.typeName);
    var _ :- CheckSims(c.sims);
    var _ :- FullmatchReference(RegexModule, "x_axis", c.xAxis);
    var _ :- FullmatchReference(RegexModule, "y_axis", c.yAxis);
    Ok(c)
  }

  /** The validators of a surface: those of a curve with its own type, and `check_axes`
      for the third axis too. */
  function ValidateSurface(s: Surface): (r: Result<Surface>)
    ensures r.Ok? <==>
      && IsIdentifier(s.identifier) && s.typeName == SURFACE_TYPE && AllReferences(s.sims)
      && IsReference(s.xAxis) && IsReference(s.yAxis) && IsReference(s.zAxis)
    ensures r.Ok? ==> r.value == s
    ensures r.Err? ==> r.error.AssertionError?
    ensures !IsIdentifier(s.identifier) ==> r == Err(AssertionError("identifier"))
    ensures IsIdentifier(s.identifier) && s.typeName != SURFACE_TYPE ==> r == Err(AssertionError("type"))
  {
    PlotTypes(s.typeName);
    var _ :- FullmatchIdentifier(Stdlib, "identifier", s.identifier);
    var _ :- LiteralType(SURFACE_TYPE, s.typeName);
    var _ :- CheckSims(s.sims);
    var _ :- FullmatchReference(RegexModule, "x_axis", s.xAxis);
    var _ :- FullmatchReference(RegexModule, "y_axis", s.yAxis);
    var _ :- FullmatchReference(RegexModule, "z_axis", s.zAxis);
    Ok(s)
  }

  /** One entry of a plot's list: a string must be a whole reference, a dict must build
      the member record (whose validators are not registered), and anything else is let
      through unchecked. */
  function CheckMember(field: string, fields: seq<Pydantic.Field>, e: PyValue): (r: Result<()>)
    ensures e.PyStr? ==> (r.Ok? <==> IsReference(e.s))
    ensures e.PyStr? && r.Err? ==> r.error == AssertionError(field)
    ensures e.PyDict? ==> (r.Ok? <==> Pydantic.Build(fields, e.entries).Ok?)
    ensures e.PyDict? && r.Err? ==> r.error == Pydantic.Build(fields, e.entries).error
    ensures !e.PyStr? && !e.PyDict? ==> r.Ok?
    ensures r.Err? ==> r.error.IsCollected()
  {
    match e
    case PyStr(s) => var _ :- FullmatchReference(RegexModule, field, s); Ok(())
    case PyDict(entries) => var _ :- Pydantic.Build(fields, entries); Ok(())
    case _ => Ok(())
  }

  /** Every entry passes. */
  predicate AllMembersPass(field: string, fields: seq<Pydantic.Field>, es: seq<PyValue>) {
    forall i :: 0 <= i < |es| ==> CheckMember(field, fields, es[i]).Ok?
  }

  /** The loop over a plot's entries: the first entry that fails is reported. */
  function CheckMembers(field: string, fields: seq<Pydantic.Field>, es: seq<PyValue>): (r: Result<()>)
    ensures r.Ok? <==> AllMembersPass(field, fields, es)
    ensures r.Err? ==> exists k :: 0 <= k < |es| && CheckMember(field, fields, es[k]) == Err(r.error)
                                   && AllMembersPass(field, fields, es[..k])
  {
    if es == [] then Ok(())
    else
      var head := CheckMember(field, fields, es[0]);
      if head.Err? then
        assert es[..0] == [];
        Err(head.error)
      else
        var rest := CheckMembers(field, fields, es[1..]);
        assert forall i :: 1 <= i < |es| ==> es[i] == es[1..][i - 1];
        if rest.Err? then
          var k :| 0 <= k < |es[1..]| && CheckMember(field, fields, es[1..][k]) == Err(rest.error)
                   && AllMembersPass(field, fields, es[1..][..k]);
          assert es[k + 1] == es[1..][k];
          assert AllMembersPass(field, fields, es[..k + 1]) by {
            var pre := es[..k + 1];
            forall i | 0 <= i < k + 1 ensures CheckMember(field, fields, pre[i]).Ok? {
              if i > 0 { assert pre[i] == es[1..][..k][i - 1]; }
            }
          }
          Err(rest.error)
        else Ok(())
  }

  /** `Plot2D.check_curves`: the list is not empty and every entry passes. It returns
      nothing, so a model that registered it would hold `None` for its curves. */
  function CheckCurves(curves: seq<PyValue>): (r: Result<PyValue>)
    ensures r.Ok? <==> |curves| > 0 && AllMembersPass("curves", CURVE_FIELDS, curves)
    ensures r.Ok? ==> r.value == PyNone
    ensures curves == [] ==> r == Err(AssertionError("curves"))
    ensures r.Err? ==> r.error.IsCollected()
  {
    if |curves| == 0 then Err(AssertionError("curves"))
    else
      var _ :- CheckMembers("curves", CURVE_FIELDS, curves);
      Ok(PyNone)
  }

  /** `Plot3D.check_curves`, over surfaces: as for curves. */
  function CheckSurfaces(surfaces: seq<PyValue>): (r: Result<PyValue>)
    ensures r.Ok? <==> |surfaces| > 0 && AllMembersPass("surfaces", SURFACE_FIELDS, surfaces)
    ensures r.Ok? ==> r.value == PyNone
    ensures surfaces == [] ==> r == Err(AssertionError("surfaces"))
    ensures r.Err? ==> r.error.IsCollected()
  {
    if |surfaces| == 0 then Err(AssertionError("surfaces"))
    else
      var _ :- CheckMembers("surfaces", SURFACE_FIELDS, surfaces);
      Ok(PyNone)
  }

  /** Building a curve from its keyword arguments checks only the field types. */
  lemma CurveBuilds(c: Curve)
    ensures Pydantic.Build(CURVE_FIELDS, CurveKwargs(c)).Ok?
  {
    Pydantic.AlignedSupplied(CURVE_FIELDS, CurveKwargs(c));
    Pydantic.TextFieldsAccepted(CURVE_FIELDS, CurveKwargs(c));
  }

  /** Building a surface from its keyword arguments checks only the field types. */
  lemma SurfaceBuilds(s: Surface)
    ensures Pydantic.Build(SURFACE_FIELDS, SurfaceKwargs(s)).Ok?
  {
    Pydantic.AlignedSupplied(SURFACE_FIELDS, SurfaceKwargs(s));
    Pydantic.TextFieldsAccepted(SURFACE_FIELDS, SurfaceKwargs(s));
  }

  /** Any curve given in full as a dict passes the plot's check, even one its own
      validators reject: the nested build does not run them. */
  lemma SpelledCurvePasses(c: Curve)
    ensures CheckCurves([PyDict(CurveKwargs(c))]) == Ok(PyNone)
  {
    CurveBuilds(c);
  }

  /** Any surface given in full as a dict passes the plot's check. */
  lemma SpelledSurfacePasses(s: Surface)
    ensures CheckSurfaces([PyDict(SurfaceKwargs(s))]) == Ok(PyNone)
  {
    SurfaceBuilds(s);
  }

  /** A curve with an unreferenced axis: its validators reject it, the plot accepts it. */
  lemma UncheckedCurveExample()
    ensures ValidateCurve(Curve("c", "c1", CURVE_TYPE, [], "x", "#y")) == Err(AssertionError("x_axis"))
    ensures CheckCurves([PyDict(CurveKwargs(Curve("c", "c1", CURVE_TYPE, [], "x", "#y")))]) == Ok(PyNone)
  {
    assert IsIdentifier("c1");
    PlotTypes(CURVE_TYPE);
    assert !IsReference("x");
    SpelledCurvePasses(Curve("c", "c1", CURVE_TYPE, [], "x", "#y"));
  }

  /** A dict that lacks the curve's fields fails on the first of them; an entry that is
      neither a string nor a dict is let through. */
  lemma MemberExamples()
    ensures CheckCurves([PyDict([])]) == Err(MissingField("name"))
    ensures CheckCurves([PyInt(3)]) == Ok(PyNone)
    ensures CheckCurves([PyStr("c1")]) == Err(AssertionError("curves"))
  {
    assert CURVE_FIELDS[0].name == "name";
    Pydantic.FirstMissingReported(Pydantic.ModelField(CURVE_FIELDS), CURVE_FIELDS, [], 0);
    Pydantic.FieldsBelow(Pydantic.ModelField(CURVE_FIELDS));
    assert !IsReference("c1");
    var es := [PyDict([])];
    assert CheckMember("curves", CURVE_FIELDS, es[0]) == Err(MissingField("name"));
    assert CheckMembers("curves", CURVE_FIELDS, es) == Err(MissingField("name"));
  }
}
