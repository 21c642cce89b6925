/** The report records of the newer snapshot (src/sed_tooling/sed_model/report.py), both
    actions whose validators use the `regex` module. A data hierarchy maps group names to
    lists whose entries are references to data reports or data reports given in full. */
module Report {
  import opened Outcomes
  import opened PyValues
  import opened Patterns
  import opened FieldChecks
  import opened Dicts
  import opened PyText
  import Pydantic

  const DATA_REPORT_TYPE: string := "sed::DataReport"
  const HDF5_REPORT_TYPE: string := "hdf5::Hdf5Report"

  /** `metaData` holds a dict whose values are strings or lists of scalars. */
  datatype DataReport = DataReport(
    name: string, identifier: string, typeName: string, sim: seq<string>,
    metaData: PyValue, dataSets: seq<string>)

  datatype HDF5Report = HDF5Report(
    name: string, identifier: string, typeName: string, dataHierarchy: Dict<seq<PyValue>>)

  const DATA_REPORT_FIELDS: seq<Pydantic.Field> := [
    Pydantic.Field("name", Pydantic.StrField, Pydantic.Required),
    Pydantic.Field("identifier", Pydantic.StrField, Pydantic.Required),
    Pydantic.Field("type", Pydantic.StrField, Pydantic.Required),
    Pydantic.Field("sim", Pydantic.StrListField, Pydantic.Required),
    Pydantic.Field("metaData", Pydantic.MetaDataField, Pydantic.Required),
    Pydantic.Field("dataSets", Pydantic.StrListField, Pydantic.Required)
  ]

  /** The keyword arguments that spell out a data report. */
  function DataReportKwargs(d: DataReport): seq<(string, PyValue)> {
    [("name", PyStr(d.name)), ("identifier", PyStr(d.identifier)), ("type", PyStr(d.typeName)),
     ("sim", Pydantic.TextList(d.sim)), ("metaData", d.metaData),
     ("dataSets", Pydantic.TextList(d.dataSets))]
  }

  /** Both type validators accept exactly their own literal, which is itself a type. */
  lemma ReportTypes(v: string)
    ensures LiteralType(DATA_REPORT_TYPE, v).Ok? <==> v == DATA_REPORT_TYPE
    ensures LiteralType(HDF5_REPORT_TYPE, v).Ok? <==> v == HDF5_REPORT_TYPE
  {
    DataReportTypeParts();
    QualifiedLiteralType("sed", "DataReport", v);
    Hdf5ReportTypeParts();
    QualifiedLiteralType("hdf5", "Hdf5Report", v);
  }

  lemma DataReportTypeParts()
    ensures IsIdentifier("sed") && IsIdentifier("DataReport") && "sed" + "::" + "DataReport" == DATA_REPORT_TYPE
  {
  }

  lemma Hdf5ReportTypeParts()
    ensures IsIdentifier("hdf5") && IsIdentifier("Hdf5Report") && "hdf5" + "::" + "Hdf5Report" == HDF5_REPORT_TYPE
  {
  }

  /** The validators of a data report: `legal_id` of `Action` and the type. A report
      passes exactly when both accept it, and is then kept as it is. */
  function ValidateDataReport(d: DataReport): (r: Result<DataReport>)
    ensures r.Ok? <==> IsIdentifier(d.identifier) && d.typeName == DATA_REPORT_TYPE
    ensures r.Ok? ==> r.value == d
    ensures !IsIdentifier(d.identifier) ==> r == Err(AssertionError("identifier"))
    ensures IsIdentifier(d.identifier) && d.typeName != DATA_REPORT_TYPE ==> r == Err(AssertionError("type"))
  {
    ReportTypes(d.typeName);
    var _ :- FullmatchIdentifier(Stdlib, "identifier", d.identifier);
    var _ :- LiteralType(DATA_REPORT_TYPE, d.typeName);
    Ok(d)
  }

  /** The message of the `TypeError` Python raises for `**` applied to a non-mapping. */
  const NOT_A_MAPPING: string := "argument after ** must be a mapping"

  /** One data set: a string must be a whole reference; anything else is unpacked into
      `DataReport(**data_set)`, which needs a dict and builds the report without its
      validators. */
  function CheckDataSet(e: PyValue): (r: Result<()>)
    ensures e.PyStr? ==> (r.Ok? <==> IsReference(e.s))
    ensures e.PyStr? && r.Err? ==> r.error == AssertionError("dataHierarchy")
    ensures e.PyDict? ==> (r.Ok? <==> Pydantic.Build(DATA_REPORT_FIELDS, e.entries).Ok?)
    ensures e.PyDict? && r.Err? ==> r.error == Pydantic.Build(DATA_REPORT_FIELDS, e.entries).error
    ensures !e.PyStr? && !e.PyDict? ==> r == Err(TypeError(NOT_A_MAPPING))
  {
    match e
    case PyStr(s) => var _ :- FullmatchReference(RegexModule, "dataHierarchy", s); Ok(())
    case PyDict(entries) => var _ :- Pydantic.Build(DATA_REPORT_FIELDS, entries); Ok(())
    case _ => Err(TypeError(NOT_A_MAPPING))
  }

  /** Every data set of a group passes. */
  predicate AllDataSetsPass(sets: seq<PyValue>) {
    forall i :: 0 <= i < |sets| ==> CheckDataSet(sets[i]).Ok?
  }

  /** The inner loop: the data sets of one group in order, the first failure reported. */
  function CheckDataSets(sets: seq<PyValue>): (r: Result<()>)
    ensures r.Ok? <==> AllDataSetsPass(sets)
    ensures r.Err? ==> exists k :: 0 <= k < |sets| && CheckDataSet(sets[k]) == Err(r.error)
                                   && AllDataSetsPass(sets[..k])
  {
    if sets == [] then Ok(())
    else
      var head := CheckDataSet(sets[0]);
      if head.Err? then
        assert sets[..0] == [];
        Err(head.error)
      else
        var rest := CheckDataSets(sets[1..]);
        DataSetsCons(sets);
        if rest.Err? then
          var k :| 0 <= k < |sets[1..]| && CheckDataSet(sets[1..][k]) == Err(rest.error)
                   && AllDataSetsPass(sets[1..][..k]);
          PassingPrefixExtended(sets, k);
          Err(rest.error)
        else Ok(())
  }

  /** A list whose first data set passes passes exactly when the rest does. */
  lemma DataSetsCons(sets: seq<PyValue>)
    requires sets != [] && CheckDataSet(sets[0]).Ok?
    ensures AllDataSetsPass(sets) <==> AllDataSetsPass(sets[1..])
  {
    assert forall i :: 1 <= i < |sets| ==> sets[i] == sets[1..][i - 1];
  }

  /** A passing first data set followed by a passing prefix of the rest. */
  lemma PassingPrefixExtended(sets: seq<PyValue>, k: nat)
    requires sets != [] && CheckDataSet(sets[0]).Ok?
    requires k < |sets| - 1 && AllDataSetsPass(sets[1..][..k])
    ensures sets[k + 1] == sets[1..][k] && AllDataSetsPass(sets[..k + 1])
  {
    var tail, pre := sets[1..], sets[..k + 1];
    var done := tail[..k];
    forall i | 0 <= i < k + 1 ensures CheckDataSet(pre[i]).Ok? {
      if i == 0 {
        assert pre[0] == sets[0];
      } else {
        assert pre[i] == sets[i] == tail[i - 1] == done[i - 1];
      }
    }
  }

  /** One group passes: it is not empty and each of its data sets passes. */
  function CheckGroup(sets: seq<PyValue>): (r: Result<()>)
    ensures r.Ok? <==> |sets| > 0 && AllDataSetsPass(sets)
    ensures sets == [] ==> r == Err(AssertionError("dataHierarchy"))
    ensures r.Err? && sets != [] ==> r == CheckDataSets(sets)
  {
    if |sets| == 0 then Err(AssertionError("dataHierarchy")) else CheckDataSets(sets)
  }

  /** Every group passes. */
  predicate AllGroupsPass(groups: seq<seq<PyValue>>) {
    forall i :: 0 <= i < |groups| ==> CheckGroup(groups[i]).Ok?
  }

  /** The outer loop, over the groups in insertion order: the first group that fails
      raises. */
  function CheckGroups(groups: seq<seq<PyValue>>): (r: Result<()>)
    ensures r.Ok? <==> AllGroupsPass(groups)
    ensures r.Err? ==> exists k :: 0 <= k < |groups| && CheckGroup(groups[k]) == Err(r.error)
                                   && forall j :: 0 <= j < k ==> CheckGroup(groups[j]).Ok?
  {
    FirstFailure(CheckGroup, groups)
  }

  /** `check_data_hierarchy_values`: every group is non-empty and every data set in it
      passes; the hierarchy is then given back unchanged. Otherwise the first group, in
      the dict's insertion order, that fails raises. */
  function CheckDataHierarchy(v: Dict<seq<PyValue>>): (r: Result<Dict<seq<PyValue>>>)
    requires v.Valid()
    ensures r.Ok? <==> forall k :: k in v.items ==> CheckGroup(v.items[k]).Ok?
    ensures r.Ok? ==> r.value == v
    ensures r.Err? ==> exists i :: 0 <= i < |v.order| && CheckGroup(v.items[v.order[i]]) == Err(r.error)
                                   && forall j :: 0 <= j < i ==> CheckGroup(v.items[v.order[j]]).Ok?
  {
    var groups := v.Values();
    match CheckGroups(groups)
    case Err(e) => Err(e)
    case Ok(_) =>
      assert forall k :: k in v.items ==> CheckGroup(v.items[k]).Ok? by {
        forall k | k in v.items ensures CheckGroup(v.items[k]).Ok? {
          assert k in Elements(v.order);
          var i :| 0 <= i < |v.order| && v.order[i] == k;
          assert groups[i] == v.items[k];
        }
      }
      Ok(v)
  }

  /** The validators of an HDF5 report: `legal_id`, the type and the data hierarchy. */
  function ValidateHDF5Report(h: HDF5Report): (r: Result<HDF5Report>)
    requires h.dataHierarchy.Valid()
    ensures r.Ok? <==>
      && IsIdentifier(h.identifier) && h.typeName == HDF5_REPORT_TYPE
      && forall k :: k in h.dataHierarchy.items ==> CheckGroup(h.dataHierarchy.items[k]).Ok?
    ensures r.Ok? ==> r.value == h
    ensures !IsIdentifier(h.identifier) ==> r == Err(AssertionError("identifier"))
    ensures IsIdentifier(h.identifier) && h.typeName != HDF5_REPORT_TYPE ==> r == Err(AssertionError("type"))
  {
    ReportTypes(h.typeName);
    var _ :- FullmatchIdentifier(Stdlib, "identifier", h.identifier);
    var _ :- LiteralType(HDF5_REPORT_TYPE, h.typeName);
    var _ :- CheckDataHierarchy(h.dataHierarchy);
    Ok(h)
  }

  /** Any data report given in full as a dict passes as a data set, even one whose own
      validators reject it: the nested build does not run them. */
  lemma SpelledDataReportPasses(d: DataReport)
    requires Pydantic.IsMetaData(d.metaData)
    ensures CheckDataSet(PyDict(DataReportKwargs(d))).Ok?
  {
    Pydantic.AlignedSupplied(DATA_REPORT_FIELDS, DataReportKwargs(d));
    Pydantic.TextFieldsAccepted(DATA_REPORT_FIELDS, DataReportKwargs(d));
  }

  /** An empty group is rejected, and a data set that is neither a string nor a dict makes
      `**` raise a `TypeError`, which pydantic does not collect: unlike the plots, the
      hierarchy lets no other kind of entry through. */
  lemma DataSetExamples(n: int)
    ensures CheckGroup([]) == Err(AssertionError("dataHierarchy"))
    ensures CheckGroup([PyInt(n)]) == Err(TypeError(NOT_A_MAPPING))
    ensures !TypeError(NOT_A_MAPPING).IsCollected()
    ensures CheckGroup([PyStr("#d1")]).Ok?
  {
    assert [PyInt(n)][..0] == [];
    assert IsIdentifier("#d1"[1..]) by { assert "#d1"[1..] == "d1"; }
  }
}
