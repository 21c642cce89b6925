/** The Sed document of the newer snapshot (src/sed_tooling/sed_model/sed_document.py) and
    `get_correct_doc`, which builds it once to read its level and version and then
    builds it again as the class a 1×1 table selects. Only `Metadata` has registered
    validators; the other records are checked by their field types alone. */
module SedDocument {
  import opened Outcomes
  import opened PyValues
  import opened Pydantic
  import Metadata
  import Action
  import Dependency
  import Constant
  import Variable
  import Input
  import Output

  const DECLARATIONS_FIELDS: seq<Field> := [
    Field("constants", ListField(ModelField(Constant.FIELDS)), Required),
    Field("variables", ListField(ModelField(Variable.FIELDS)), Required)
  ]

  /** The fields after `metadata`, in declaration order; `inputs` and `outputs` are
      `Optional[...] = None`. */
  const BODY_FIELDS: seq<Field> := [
    Field("dependencies", ListField(ModelField(Dependency.FIELDS)), Required),
    Field("declarations", ModelField(DECLARATIONS_FIELDS), Required),
    Field("actions", ListField(ModelField(Action.FIELDS)), Required),
    Field("inputs", ListField(ModelField(Input.FIELDS)), DefaultNone),
    Field("outputs", ListField(ModelField(Output.FIELDS)), DefaultNone)
  ]

  /** The field that holds the metadata. */
  const METADATA_FIELD: string := "metadata"

  /** The attributes a built document has: its declared fields, in order. */
  const ATTRIBUTES: seq<string> := [METADATA_FIELD] + FieldNames(BODY_FIELDS)

  /** `SedDocument`, or its subclass `SedDocumentL1V1` with the same fields. */
  datatype Release = Base | L1V1

  datatype Document = Document(release: Release, metadata: Metadata.Metadata, body: seq<(string, PyValue)>)

  /** `level_version_matrix`. */
  const RELEASES: seq<seq<Release>> := [[L1V1]]

  /** Python's `xs[i]`: a negative index counts from the end; one out of range raises. */
  function PyIndex<T>(xs: seq<T>, i: int): (r: Result<T>)
    ensures r.Ok? <==> -|xs| <= i < |xs|
    ensures 0 <= i < |xs| ==> r == Ok(xs[i])
    ensures -|xs| <= i < 0 ==> r == Ok(xs[|xs| + i])
    ensures r.Err? ==> r.error == IndexError
  {
    if 0 <= i < |xs| then Ok(xs[i])
    else if -|xs| <= i < 0 then Ok(xs[|xs| + i])
    else Err(IndexError)
  }

  /** The metadata given as a dict, built against the newer list of ontologies. */
  function BuildMetadata(kwargs: seq<(string, PyValue)>): (r: Result<Metadata.Metadata>)
    ensures r.Ok? ==> r.value.level == 1 && r.value.version == 1
    ensures r.Ok? ==> Lookup(kwargs, "metadata").Some? && Lookup(kwargs, "metadata").value.PyDict?
    ensures r.Ok? ==> Metadata.Build(Metadata.CURRENT, Lookup(kwargs, "metadata").value.entries) == r
    ensures r.Err? ==> r.error.IsCollected()
  {
    var given :- Given(kwargs, "metadata");
    if given.PyDict? then Metadata.Build(Metadata.CURRENT, given.entries)
    else Err(WrongFieldType("metadata"))
  }

  /** `release(**kwargs)`: the metadata and then the other fields, in declaration order. */
  function Build(release: Release, kwargs: seq<(string, PyValue)>): (r: Result<Document>)
    ensures r.Ok? ==> r.value.release == release
    ensures r.Ok? ==> r.value.metadata.level == 1 && r.value.metadata.version == 1
    ensures r.Ok? ==> Keys(r.value.body) == FieldNames(BODY_FIELDS)
    ensures r.Ok? ==> forall i :: 0 <= i < |BODY_FIELDS| ==>
                        (BODY_FIELDS[i].presence == DefaultNone && BODY_FIELDS[i].name !in Keys(kwargs)
                         ==> r.value.body[i].1 == PyNone)
  {
    var metadata :- BuildMetadata(kwargs);
    var body :- Pydantic.Build(BODY_FIELDS, kwargs);
    Ok(Document(release, metadata, body))
  }

  /** `get_correct_doc`: build a `SedDocument`, pick the class for its level and
      version, and build the input again as that class, re-raising what it raises.
      Since metadata admits only level 1 and version 1, every document that builds is
      dispatched without an index error to `SedDocumentL1V1`, holding the same fields;
      a document that does not build fails with the first build's error. */
  function GetCorrectDoc(kwargs: seq<(string, PyValue)>): (r: Result<Document>)
    ensures r.Ok? <==> Build(Base, kwargs).Ok?
    ensures r.Ok? ==> r.value == Build(Base, kwargs).value.(release := L1V1)
    ensures r.Err? ==> r.error == Build(Base, kwargs).error
  {
    SameFields(L1V1, kwargs);
    match Build(Base, kwargs)
    case Err(e) => Err(e)
    case Ok(document) =>
      match PyIndex(RELEASES, document.metadata.level - 1)
      case Err(e) => Err(e)
      case Ok(row) =>
        match PyIndex(row, document.metadata.version - 1)
        case Err(e) => Err(e)
        case Ok(release) => Build(release, kwargs)
  }

  /** The release does not change what is built, only which class holds it. */
  lemma SameFields(release: Release, kwargs: seq<(string, PyValue)>)
    ensures Build(release, kwargs).Ok? <==> Build(Base, kwargs).Ok?
    ensures Build(release, kwargs).Ok? ==>
              Build(release, kwargs).value == Build(Base, kwargs).value.(release := release)
    ensures Build(release, kwargs).Err? ==> Build(release, kwargs).error == Build(Base, kwargs).error
  {
  }

  /** An index into the table is out of range for any level or version but 1. */
  lemma OnlyOneRelease(level: int, version: int)
    requires level > 0 && version > 0
    ensures (PyIndex(RELEASES, level - 1).Ok? && PyIndex(PyIndex(RELEASES, level - 1).value, version - 1).Ok?)
            <==> (level == 1 && version == 1)
  {
  }
}
