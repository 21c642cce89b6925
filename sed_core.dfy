/** The export side of the newer snapshot (src/sed_tooling/sed_converter/sed_core.py):
    `convert_to_sedml` refuses documents whose metadata lists an ontology the SED-ML
    export cannot express, and otherwise does nothing yet. */
module SedCore {
  import opened Outcomes
  import opened PyText
  import SedDocument

  const UNSUPPORTED := "File contains ontologies that can not currently be converted to SedML"

  /** The ontologies that stop an export. */
  const BLOCKING: set<string> := {"pe", "cosim"}

  /** The test on the ontologies: `{"pe", "cosim"}.intersection(set(ontologies))`. An
      empty intersection lets the export through; it returns `None`. Only membership
      counts, so neither the order nor repetitions of the list can change the outcome. */
  function OntologyGate(ontologies: seq<string>): (r: Result<()>)
    ensures r.Err? <==> "pe" in ontologies || "cosim" in ontologies
    ensures r.Err? ==> r.error == NotImplementedError(UNSUPPORTED)
  {
    if BLOCKING * Elements(ontologies) != {} then
      assert "pe" in ontologies ==> "pe" in BLOCKING * Elements(ontologies);
      Err(NotImplementedError(UNSUPPORTED))
    else
      assert "pe" !in BLOCKING * Elements(ontologies) && "cosim" !in BLOCKING * Elements(ontologies);
      Ok(())
  }

  /** Two ontology lists with the same members pass or fail the gate alike. */
  lemma GateSeesOnlyMembers(a: seq<string>, b: seq<string>)
    requires forall o :: o in a <==> o in b
    ensures OntologyGate(a) == OntologyGate(b)
  {
  }

  /** `sed_doc.<attribute>.ontologies` on a built document: only the metadata field
      holds ontologies; the value of another field has no such attribute, and a name
      that is neither a field of the document nor an attribute of the model class
      raises at once. The model class's own attributes are not modelled: every name
      outside the fields is treated as missing. */
  function Ontologies(doc: SedDocument.Document, attribute: string): (r: Result<seq<string>>)
    ensures r.Ok? <==> attribute == SedDocument.METADATA_FIELD
    ensures r.Ok? ==> r.value == doc.metadata.ontologies
    ensures attribute !in SedDocument.ATTRIBUTES ==> r == Err(AttributeError(attribute))
  {
    if attribute == SedDocument.METADATA_FIELD then Ok(doc.metadata.ontologies)
    else if attribute in SedDocument.ATTRIBUTES then Err(AttributeError("ontologies"))
    else Err(AttributeError(attribute))
  }

  /** The attribute `convert_to_sedml` reads, spelled with a capital letter. */
  const READ_ATTRIBUTE: string := "Metadata"

  /** No field of the document is spelled as `convert_to_sedml` spells it. */
  lemma ReadAttributeMissing()
    ensures READ_ATTRIBUTE !in SedDocument.ATTRIBUTES
  {
    var names := SedDocument.ATTRIBUTES;
    assert |names| == 6;
    forall i | 0 <= i < |names| ensures names[i] != READ_ATTRIBUTE {
      assert names[i][0] != 'M';
    }
  }

  /** `convert_to_sedml` on the document `get_correct_doc` builds: it reads the
      ontologies through the attribute it spells, then runs the gate on them. As no
      field is spelled so, the lookup fails before the gate is reached, whatever the
      ontologies. */
  function ConvertToSedml(doc: SedDocument.Document): (r: Result<()>)
    ensures r == Err(AttributeError(READ_ATTRIBUTE))
    ensures r != OntologyGate(doc.metadata.ontologies)
  {
    ReadAttributeMissing();
    match Ontologies(doc, READ_ATTRIBUTE)
    case Err(e) => Err(e)
    case Ok(ontologies) => OntologyGate(ontologies)
  }
}
