# SedTooling core, modelled in Dafny

SedTooling reads and writes simulation-experiment descriptions. It has two halves:

- a validated record model for "Sed" documents (metadata, dependencies, declarations,
  actions, inputs and outputs), written as pydantic models with field validators;
- a converter that turns a SED-ML document into those records.

The converter first runs the document through an adapter (`SedMLDocument`) that keeps
only the parts the outputs reach. Then `SedMLCore.convert_to_sed` translates the models
and tasks.

This project models, in Dafny:

- The field validators of both snapshots of the record model.
  - The newer one is `src/sed_tooling/sed_model`; the older one is
    `src/sed_converter/{io,dependencies,metadata,actions/load}`.
  - Each validator is a function from the value it is given to the value it keeps or
    the exception it raises.
  - Building a record is modelled as pydantic's field coercion followed by the
    validators that pydantic actually registers.
- The type grammar of `pattens.py`, as a recursive predicate. Its `(?R)` re-enters the
  whole pattern.
- `re.match` (a prefix must fit) and `re.fullmatch` (the whole string must fit).
- The `(?R)` construct, which the standard `re` module cannot compile, so it raises a
  pattern error.
- Metadata gating and the level/version dispatch of `get_correct_doc`.
- The SED-ML reachability adapter `src/sed_converter/sedml_document.py`, as a class.
  - Its table fields are ordered dictionaries.
  - Its `_process_*` passes are looping methods proved against functions on the
    document.
  - The descent through repeated tasks is a recursive function with a fuel bound.
- The converter `src/sed_tooling/sed_converter/sedml_core.py`.
  - The staging object `proto_sed` is a class with sequence fields.
  - The namespace loop, `_convert_models` and `_convert_sims` are methods proved
    against functions.
- The export gate of `src/sed_tooling/sed_converter/sed_core.py`.

Where the code and its evident intent differ, the model follows the code:

- In the newer snapshot, `@classmethod` sits above `@field_validator`. So pydantic
  registers none of those validators, and building a record there checks field types
  only.
- In `_convert_sims` a repeated task fails at once, because it iterates over an int.
- In `_convert_sims` every uniform time course fails in pydantic, because the
  converter never passes the required `model` field.
- The `sbml` branch of the namespace loop splits the prefix itself. That prefix never
  names a level or version, so every document declaring it fails.
- `convert_to_sedml` reads `sed_doc.Metadata`. The document class names that field
  `metadata`, so the call fails with `AttributeError` before the gate.
- The module `sed_tooling.sed_converter.sedml_document`, which `sedml_core.py` imports,
  is not part of this model. The adapter modelled is `src/sed_converter/sedml_document.py`,
  whose interface `sedml_core.py` uses.

Layout:

- one Dafny module per modelled source file;
- shared modules for Python's results and exceptions (`Outcomes`), strings (`PyText`),
  numbers (`PyNumbers`), values (`PyValues`), ordered dicts (`Dicts`), the patterns
  (`Patterns`, `FieldChecks`) and pydantic's field coercion (`Pydantic`).

## Model

| member | source | states |
|---|---|---|
| Patterns.IdentifierPrefix | src/sed_tooling/sed_model/pattens.py:4 | `re.match` of the identifier pattern succeeds iff the string is non-empty and its first character is a letter, digit, `_` or `-` |
| Patterns.SegmentPrefix | src/sed_tooling/sed_model/pattens.py:2 | `re.match` of the first-segment class `[><A-Za-z0-9_-]+` succeeds iff the first character is in that class |
| Patterns.SourcePrefix | src/sed_converter/dependencies/dependency.py:31 | `re.match` of the source class succeeds iff the first character is a letter, digit, `_`, `/` or `-` |
| Patterns.ReferencePrefix | src/sed_tooling/sed_model/pattens.py:5 | `re.match` of the reference pattern succeeds iff the string starts with `#` and an identifier character |
| Patterns.SegmentReferencePrefix | src/sed_tooling/sed_model/load_action.py:33 | `re.match` of `#[><A-Za-z0-9_-]+` succeeds iff the string starts with `#` and a segment character |
| Patterns.TypePatternRecurses | src/sed_tooling/sed_model/pattens.py:2 | the type pattern, with any prefix before it, contains `(?R)`, so `re` cannot compile it |
| Patterns.IdentifierIsType | src/sed_tooling/sed_model/pattens.py:2-4 | every identifier is a type |
| Patterns.MatchesChars | src/sed_tooling/sed_model/pattens.py:2-3 | every string the type grammar accepts is made only of TYPE_CHARS characters (for the bare grammar and for prefixed ones whose prefix is) |
| Patterns.BadTypeRejected | src/sed_tooling/sed_model/pattens.py:2 | `"bad type!"` is not a type |
| Patterns.QualifiedTypeAccepted | src/sed_tooling/sed_model/pattens.py:2 | `"org1::mytype"` is a type |
| Patterns.QualifiedLiteralIsType | src/sed_tooling/sed_model/pattens.py:2 | an identifier, `::` and another identifier make a type |
| Patterns.AngleInFirstSegmentAccepted | src/sed_tooling/sed_model/pattens.py:2 | `"a<b"` is a type: angle brackets may occur in the first segment |
| Patterns.AngleAfterTailRejected | src/sed_tooling/sed_model/pattens.py:2 | `"a::b<c"` is not a type: later segments may not hold angle brackets, and an argument list must close |
| Patterns.ParameterisedTypeAccepted | src/sed_tooling/sed_model/pattens.py:2 | `"Model<sbml::SBMLFile>"` is a type: an argument list holds whole types |
| FieldChecks.ClassPatternsCompile | src/sed_tooling/sed_model/pattens.py:4-5 | the identifier, reference, segment and source patterns compile with either module |
| FieldChecks.FullmatchIdentifier | src/sed_tooling/sed_model/action.py:15-16 | the identifier is accepted iff it is a non-empty run of letters, digits, `_` and `-`, and is returned unchanged; otherwise an assertion fails |
| FieldChecks.MatchIdentifier | src/sed_tooling/sed_model/constant.py:16-17 | the identifier is accepted iff its first character is an identifier character (a prefix match), and is returned unchanged |
| FieldChecks.MatchSegment | src/sed_tooling/sed_model/simulation.py:37 | a part is accepted iff its first character is `<`, `>` or an identifier character |
| FieldChecks.FullmatchReference | src/sed_tooling/sed_model/input.py:34 | a string is accepted iff it is `#` followed by a non-empty identifier |
| FieldChecks.MatchReference | src/sed_tooling/sed_model/output.py:33 | a string is accepted iff it starts with `#` and an identifier character; later characters are unchecked |
| FieldChecks.MatchSegmentReference | src/sed_tooling/sed_model/load_action.py:33-34 | a source or target is accepted iff it starts with `#` and a segment character, and is returned unchanged |
| FieldChecks.StdlibType | src/sed_tooling/sed_model/action.py:20-25 | a type check passing the recursive pattern to `re` raises a pattern error for every input |
| FieldChecks.RegexType | src/sed_tooling/sed_model/dependency.py:21-26 | a type check through `regex.fullmatch` accepts exactly the strings of the grammar and returns them unchanged |
| FieldChecks.LiteralType | src/sed_tooling/sed_model/plots.py:19-20 | a check that the type is a type and equals a literal accepts exactly values that are both |
| FieldChecks.QualifiedLiteralType | src/sed_tooling/sed_model/plots.py:19-20 | for a literal `head::tail` of two identifiers, the grammar check is redundant: only the literal is accepted |
| FieldChecks.IdentifierExamples | src/sed_tooling/sed_model/action.py:15 | `"a-b_9"` passes the full identifier match; `"a!"` and `""` do not; `"c1!!"` passes the prefix match and `""` does not |
| FieldChecks.Settle | src/sed_tooling/sed_model/constant.py:13-25 | the validators of a record run in field order: all pass iff each passes; the error reported is one of theirs, and an exception pydantic does not collect always escapes |
| FieldChecks.SettleFirstCollected | src/sed_tooling/sed_model/input.py:13-39 | when every failure is an assertion, the first failing validator's error is reported |
| FieldChecks.SettleFirstEscaping | src/sed_tooling/sed_model/constant.py:19-25 | a pattern error escapes as soon as its validator runs, whatever the assertions before it |
| FieldChecks.SplitType | src/sed_converter/io/input.py:22-25 | the split-based type check accepts iff splitting on `::` gives at least two parts, each non-empty and starting with a segment character; the type is returned unchanged |
| FieldChecks.QualifiedSplitTypeAccepted | src/sed_converter/io/input.py:22-25 | `"org1::mytype"` passes the split-based check |
| FieldChecks.UnqualifiedSplitTypeRejected | src/sed_converter/io/input.py:22-25 | `"mytype"` and `"a::"` fail it |
| FieldChecks.TripleColonRejected | src/sed_converter/io/input.py:22-25 | `"a:::b"` fails it: the second part `":b"` starts with `:` |
| Action.Validate | src/sed_tooling/sed_model/action.py:12-25 | running the identifier and type validators always ends in the pattern error of the type check |
| Action.BuildSkipsValidators | src/sed_tooling/sed_model/action.py:7-25 | building an `Action` from any three strings succeeds, because pydantic never registers its validators |
| Constant.Validate | src/sed_tooling/sed_model/constant.py:13-25 | running the validators always ends in the type check's pattern error |
| Variable.Validate | src/sed_tooling/sed_model/variable.py:12-24 | running the validators always ends in the type check's pattern error |
| Dependency.LegalSource | src/sed_tooling/sed_model/dependency.py:28-32 | the source is accepted iff it is a non-empty run of letters, digits, `_`, `/` and `-`, and is returned unchanged |
| Dependency.Validate | src/sed_tooling/sed_model/dependency.py:13-32 | a dependency passes iff its identifier, type and source all fit; it is then kept unchanged, and otherwise the first field that does not fit is reported |
| Dependency.Examples | src/sed_tooling/sed_model/dependency.py:31 | the test's dependency passes; a source `"model.xml"` is rejected because of the dot |
| Dependency.BuildSkipsValidators | src/sed_tooling/sed_model/dependency.py:7-11 | building a dependency from any four strings succeeds |
| LoadAction.Validate | src/sed_tooling/sed_model/load_action.py:16-34 | running the validators always ends in the type check's pattern error |
| LoadAction.SourceExamples | src/sed_tooling/sed_model/load_action.py:33 | `"#a!"` passes the source check and `"dep_m1"` fails it |
| LoadAction.BuildSkipsValidators | src/sed_tooling/sed_model/load_action.py:9-14 | building a load from any five strings succeeds |
| Input.Target | src/sed_tooling/sed_model/input.py:28-39 | a number becomes the text of its float; a `#` target is accepted iff it is a whole reference; any other text is accepted iff `float()` parses it; accepted text is returned unchanged |
| Input.Validate | src/sed_tooling/sed_model/input.py:13-39 | an input passes iff its identifier, type and target all fit, and is then kept unchanged; otherwise the first failing field is reported |
| Input.TargetIdempotent | src/sed_tooling/sed_model/input.py:28-39 | validating an accepted target's result again gives the same result |
| Input.IntegerKept | src/sed_tooling/sed_model/input.py:36-39 | the float text of an integer is accepted and kept |
| Input.FloatTextKept | src/sed_tooling/sed_model/input.py:36-39 | any float text is accepted and kept |
| Input.NumberKept | src/sed_tooling/sed_model/input.py:36-39 | any text `float()` parses is kept as given, not canonicalised |
| Input.NumberTextKept | src/sed_tooling/sed_model/input.py:36-39 | `"12"` stays `"12"` |
| Input.WordRejected | src/sed_tooling/sed_model/input.py:36-38 | `"target1"` raises the `float()` error |
| Input.ReferenceAccepted | src/sed_tooling/sed_model/input.py:33-35 | `"#target1"` is accepted unchanged |
| Input.IntegerBecomesFloatText | src/sed_tooling/sed_model/input.py:31-32 | the integer `1` becomes `"1.0"` |
| Output.Interval | src/sed_tooling/sed_model/output.py:27-38 | a float becomes its text; a `#` interval is accepted iff its second character is an identifier character; any other text iff `float()` parses it; accepted text is unchanged; other values fail at `startswith` |
| Output.Validate | src/sed_tooling/sed_model/output.py:13-38 | running the validators always ends in the type check's pattern error |
| Output.IntervalIdempotent | src/sed_tooling/sed_model/output.py:27-38 | validating an accepted interval's result again gives the same result |
| Output.FloatTextKept | src/sed_tooling/sed_model/output.py:35-38 | float text is accepted and kept |
| Output.NumberKept | src/sed_tooling/sed_model/output.py:35-38 | text `float()` parses is kept as given |
| Output.IntervalExamples | src/sed_tooling/sed_model/output.py:30-34 | an int interval is neither float nor string and fails at `startswith`; `"#a!"` passes; `"#"` fails |
| LegacyInput.Target | src/sed_converter/io/input.py:28-39 | a number becomes the text of its float; a `#` target is accepted iff its second character is an identifier character; any other text iff `int()` parses it; accepted text is unchanged |
| LegacyInput.Build | src/sed_converter/io/input.py:7-39 | building an input succeeds only with the four strings supplied and every validator passing, and keeps the strings as given; a failure is one pydantic collects |
| LegacyInput.BuildRecord | src/sed_converter/io/input.py:7-39 | an input built from its own fields succeeds iff all its validators pass, and then equals the record |
| LegacyInput.NumberTargetRefused | src/sed_converter/io/input.py:11-32 | a number target never reaches the validator: the `str` field refuses it first |
| LegacyInput.TestInputsBuilt | tests/test_seddocument.py:25-26 | the test's inputs build unchanged |
| LegacyInput.TestInputAccepted | tests/test_seddocument.py:25 | the test's input passes every validator |
| LegacyInput.DigitsTargetKept | src/sed_converter/io/input.py:36-39 | `"12"` is kept as `"12"` |
| LegacyInput.WordTargetRejected | src/sed_converter/io/input.py:38 | `"target1"` raises the `int()` error |
| LegacyInput.FractionTargetRejected | src/sed_converter/io/input.py:38 | `"1.5"` raises the `int()` error |
| LegacyOutput.Interval | src/sed_converter/io/output.py:28-38 | a float becomes its text; a `#` interval is checked for an identifier character and then yields `None`; other text is accepted iff `float()` parses it, and is kept |
| LegacyOutput.CheckedInterval | src/sed_converter/io/output.py:11-38 | the interval pydantic passes to the validator: an int or bool is first made a float, so its float text is stored |
| LegacyOutput.Build | src/sed_converter/io/output.py:7-38 | a built output has an identifier and type that pass their checks, the name as given and the interval the validator returned |
| LegacyOutput.IntervalIdempotent | src/sed_converter/io/output.py:35-38 | validating a stored interval text again gives the same text |
| LegacyOutput.FloatTextKept | src/sed_converter/io/output.py:35-38 | float text is accepted and kept |
| LegacyOutput.NumberKept | src/sed_converter/io/output.py:35-38 | text `float()` parses is kept as given |
| LegacyOutput.RoundTrip | tests/test_seddocument.py:39-59 | rebuilding an output from its stored fields gives the same output, when the interval was stored as text |
| LegacyOutput.StoredIntervalStable | src/sed_converter/io/output.py:30-38 | a stored interval text passes the validator again unchanged |
| LegacyOutput.Rebuilt | src/sed_converter/io/output.py:7-38 | an output whose fields pass the checks and whose interval is stable is rebuilt unchanged |
| LegacyOutput.ReferenceIntervalLost | src/sed_converter/io/output.py:33-34 | a `#` interval is stored as `None`, and an output holding `None` cannot be built again |
| LegacyOutput.IntegerIntervalBuilt | src/sed_converter/io/output.py:11-32 | an integer interval `n` is stored as the float text of `n` |
| LegacyOutput.TestOutputBuilt | tests/test_seddocument.py:27-55 | the test's output with interval `1` is stored with interval `"1.0"` |
| LegacyDependency.LegalSource | src/sed_converter/dependencies/dependency.py:28-32 | the source is accepted iff its first character is a letter, digit, `_`, `/` or `-`, and is kept |
| LegacyDependency.Build | src/sed_converter/dependencies/dependency.py:7-32 | a built dependency passes every validator and keeps the strings as given |
| LegacyDependency.BuildRecord | src/sed_converter/dependencies/dependency.py:7-32 | a dependency built from its own fields succeeds iff it passes every validator, and then equals the record |
| LegacyDependency.SourceExamples | src/sed_converter/dependencies/dependency.py:31 | `"mysource"` and `"model.xml"` pass; `".hidden"` and `""` fail |
| LegacyDependency.TestDependencyBuilt | tests/test_seddocument.py:14-16 | the test's dependency builds unchanged |
| LegacyDependency.TestDependencyAccepted | tests/test_seddocument.py:14-16 | the test's dependency passes every validator |
| LegacyLoad.Build | src/sed_converter/actions/load/load.py:9-35 | a built load passes every validator and keeps the strings as given |
| LegacyLoad.BuildRecord | src/sed_converter/actions/load/load.py:9-35 | a load built from its own fields succeeds iff it passes every validator, and then equals the record |
| LegacyLoad.TypeExamples | src/sed_converter/actions/load/load.py:25-28 | `"sbml::load_sbml"` passes the type check and `"load_sbml"` fails it |
| Metadata.CheckPinned | src/sed_tooling/sed_model/metadata.py:14-30 | a level or version is accepted iff it equals 1, and is returned |
| Metadata.PinnedField | src/sed_tooling/sed_model/metadata.py:10-30 | a level or version field succeeds iff it is supplied and pydantic's lax `int` reads it as 1 (the int 1, `True`, the float `1.0` or text `int()` reads as 1) |
| Metadata.CheckOntologies | src/sed_tooling/sed_model/metadata.py:32-50 | the assertion loop returns the list unchanged iff every entry is on the whitelist, otherwise the ontologies assertion fails; it agrees with the function used in building |
| Metadata.LaxOneAccepted | src/sed_tooling/sed_model/metadata.py:10-11 | a level `True` and a version `1.0` build the same record as the ints 1 and 1 |
| Metadata.Build | src/sed_tooling/sed_model/metadata.py:8-50 | built metadata has level 1, version 1, whitelisted ontologies, the name and the ontologies as given |
| Metadata.BuildRecord | src/sed_tooling/sed_model/metadata.py:8-50 | with level and version reading as 1, building succeeds iff every ontology is whitelisted, and then gives the record; otherwise the ontologies assertion fails |
| Metadata.RecordFields | src/sed_tooling/sed_model/metadata.py:9-12 | each field reads back what was supplied |
| Metadata.OtherLevelRefused | src/sed_tooling/sed_model/metadata.py:19-20 | any level other than 1 fails the level assertion |
| Metadata.TextLevelAccepted | src/sed_tooling/sed_model/metadata.py:17-18 | a level given as the text `"1"` builds the same metadata as the integer `1` |
| Metadata.OneTextReadsAsOne | src/sed_tooling/sed_model/metadata.py:10-18 | the text `"1"` reads as the integer 1 |
| Metadata.CurrentExamples | src/sed_tooling/sed_model/metadata.py:35-47 | `"sed"` and `"output<csv>"` are whitelisted; `"modeling"` and `"sbml<3,2>"` are not; the empty list passes |
| Metadata.LegacyExamples | src/sed_converter/metadata/metadata.py:33-47 | in the older whitelist `"sed"` and `"modeling"` pass and `"output<csv>"` does not |
| Metadata.TestMetadataBuilt | tests/test_seddocument.py:13 | the test's metadata builds unchanged against the older whitelist |
| SedDocument.PyIndex | src/sed_tooling/sed_model/sed_document.py:43 | Python indexing: negative indices count from the end; out of range raises `IndexError` |
| SedDocument.BuildMetadata | src/sed_tooling/sed_model/sed_document.py:21 | the metadata of a built document is the metadata built from the supplied dict, so it has level 1 and version 1 |
| SedDocument.Build | src/sed_tooling/sed_model/sed_document.py:16-35 | a built document carries validated metadata and the body fields in order; absent `inputs` and `outputs` become `None` |
| SedDocument.GetCorrectDoc | src/sed_tooling/sed_model/sed_document.py:38-50 | dispatch succeeds iff the base document builds, and gives the same fields as the L1V1 class; a failure is the base build's error |
| SedDocument.SameFields | src/sed_tooling/sed_model/sed_document.py:29-45 | building either class from the same dict gives the same fields and the same errors |
| SedDocument.OnlyOneRelease | src/sed_tooling/sed_model/sed_document.py:39-43 | for positive level and version, the table lookup succeeds iff both are 1 |
| Simulation.AlgorithmParts | src/sed_tooling/sed_model/simulation.py:35-38 | the loop over the parts passes iff every non-empty part starts with a type character; otherwise the algorithm assertion fails |
| Simulation.LegalAlgorithm | src/sed_tooling/sed_model/simulation.py:30-39 | an algorithm passes iff it contains a colon and every non-empty part between colons starts with a type character; a passing value is returned unchanged |
| Simulation.PairAlgorithmAccepted | src/sed_tooling/sed_model/simulation.py:30-39 | two colon-free pieces, each empty or starting with a type character, joined by one colon pass unchanged |
| Simulation.KisaoAlgorithmAccepted | src/sed_tooling/sed_model/simulation.py:30-39 | a KiSAO reference such as `KISAO:0000019` passes |
| Simulation.LoneColonAccepted | src/sed_tooling/sed_model/simulation.py:33-37 | a lone colon passes, because both parts are empty and skipped |
| Simulation.ColonlessAlgorithmRejected | src/sed_tooling/sed_model/simulation.py:34 | a name with no colon splits into one part and fails the length assertion |
| Simulation.PointPartRejected | src/sed_tooling/sed_model/simulation.py:38 | a part that starts with `.` fails the prefix match |
| Simulation.ScalarValues | src/sed_tooling/sed_model/simulation.py:50-56 | the value loop passes iff every value is a bool, string, float or int |
| Simulation.LegalParameters | src/sed_tooling/sed_model/simulation.py:41-57 | `None` passes as `None`; a dict passes iff its stripped keys are distinct and its values are scalars, and the result is the dict's `str()` |
| Simulation.StrippedClashRejected | src/sed_tooling/sed_model/simulation.py:41-57 | two distinct keys that are equal once stripped make the parameters fail the key assertion |
| Simulation.StrippedParametersPass | src/sed_tooling/sed_model/simulation.py:46-57 | a dict of scalars whose keys carry no spaces passes, and gives its `str()` |
| Simulation.PaddedKeysClash | src/sed_tooling/sed_model/simulation.py:46-47 | keys `a` and ` a` are distinct in the dict but clash once stripped, so the dict fails |
| Simulation.Validate | src/sed_tooling/sed_model/simulation.py:10-57 | running the validators in field order ends at the type pattern's `(?R)`: no simulation passes, and the error is the pattern error |
| Simulation.BooleanCheck | src/sed_tooling/sed_model/simulation.py:82-87 | a string gives "True" iff it is non-empty; a bool gives "True" iff it is true; other values give their `str()` |
| Simulation.BooleanCheckExamples | src/sed_tooling/sed_model/simulation.py:84-87 | "False" reads as true, the empty string as false, and a re-check of "False" gives "True" |
| Simulation.RecheckIsTrue | src/sed_tooling/sed_model/simulation.py:84-87 | checking the text the check returns always gives "True", so the check is not idempotent |
| Simulation.FloatParts | src/sed_tooling/sed_model/simulation.py:97 | the bound parsing passes iff every stripped part parses as a float; a failure is the `ValueError` of the first part `float()` refuses, every part before it parsing |
| Simulation.FirstFailingIndexed | src/sed_tooling/sed_model/simulation.py:97 | the first refused part, read by index: it is refused and every part before it is accepted |
| Simulation.RangeCheck | src/sed_tooling/sed_model/simulation.py:95-98 | a `sed::range(...)` value passes iff its bounds all parse and there are at most three of them; too many bounds fail the assertion |
| Simulation.ListParts | src/sed_tooling/sed_model/simulation.py:104-108 | the element loop passes iff every element is an unsigned decimal or a `#` reference |
| Simulation.Override | src/sed_tooling/sed_model/simulation.py:94-110 | a range call passes iff its bounds parse and number at most three; a list literal passes iff every element is legal; any other value raises the "Unknown value" error |
| Simulation.SingleBoundRejected | src/sed_tooling/sed_model/simulation.py:94-110 | a range call whose one bound `float()` cannot read raises a `ValueError` naming the stripped bound |
| Simulation.PairListAccepted | src/sed_tooling/sed_model/simulation.py:94-110 | a bracketed list of two well-spaced legal elements passes |
| Simulation.SignedNotElement | src/sed_tooling/sed_model/simulation.py:94-110 | a blank-free value starting with a sign is not a list element, so negative numbers are refused |
| Simulation.OverrideValues | src/sed_tooling/sed_model/simulation.py:94-110 | the value loop passes iff every value passes; a failure is the error of the first value that fails, all before it passing |
| Simulation.LegalOverrides | src/sed_tooling/sed_model/simulation.py:89-110 | the overrides pass iff every value passes, and the validator then returns `None`; a failure is the error of the first failing value in the dict's insertion order |
| Simulation.OverrideKeysDistinct | src/sed_tooling/sed_model/simulation.py:92-93 | a dict's keys are always distinct, so the key assertion never fails |
| Simulation.RangeAccepted | src/sed_tooling/sed_model/simulation.py:95-98 | `sed::range(0,1)` passes |
| Simulation.BoundsRead | src/sed_tooling/sed_model/simulation.py:97 | "0" and "1" both parse as floats |
| Simulation.DigitsBound | src/sed_tooling/sed_model/simulation.py:97 | any non-empty run of digits parses as a float |
| Simulation.WordBoundRejected | src/sed_tooling/sed_model/simulation.py:97 | `sed::range(a)` fails on the float conversion of `a` |
| Simulation.ListAccepted | src/sed_tooling/sed_model/simulation.py:99-108 | `[3,0.5]` passes |
| Simulation.ListLiteralSplit | src/sed_tooling/sed_model/simulation.py:103 | the inside of `[3,0.5]` splits into `3` and `0.5` |
| Simulation.ListNumbers | src/sed_tooling/sed_model/simulation.py:106 | `3` and `0.5` are both legal list elements |
| Simulation.PointDecimal | src/sed_tooling/sed_model/simulation.py:106 | digits, a point and digits form an unsigned decimal |
| Simulation.DecimalElement | src/sed_tooling/sed_model/simulation.py:105-108 | every unsigned decimal is a legal list element |
| Simulation.NegativeRejected | src/sed_tooling/sed_model/simulation.py:99-108 | `[-1]` is a list literal, but `-1` is neither a decimal nor a reference, so it fails |
| Simulation.WordValueRejected | src/sed_tooling/sed_model/simulation.py:109-110 | a bare word is neither a range nor a list, so it raises the "Unknown value" error |
| Simulation.ValidateLooped | src/sed_tooling/sed_model/simulation.py:60-110 | running the validators in field order ends at the type pattern's `(?R)`: no looped simulation passes |
| NonspatialSim.SimType | src/sed_tooling/sed_model/nonspatial_sim.py:12-18 | a type passes iff it matches the wrapped pattern under `regex`; a passing type starts with `sim::NonspatialSimulation<`, ends with `>` and is returned unchanged |
| NonspatialSim.CosimType | src/sed_tooling/sed_model/nonspatial_sim.py:24-30 | the same for the `cosim::NonspatialSimulation<` head |
| NonspatialSim.SimAndCosimDisjoint | src/sed_tooling/sed_model/nonspatial_sim.py:16-28 | no type passes both the simulation and the cosimulation check |
| NonspatialSim.NameInHeadAccepted | src/sed_tooling/sed_model/nonspatial_sim.py:15-17 | the head, any plain name and a closing `>` always match |
| NonspatialSim.UtcAccepted | src/sed_tooling/sed_model/nonspatial_sim.py:12-18 | `sim::NonspatialSimulation<UTC>` passes |
| NonspatialSim.WrongHeadRejected | src/sed_tooling/sed_model/nonspatial_sim.py:16-17 | the cosimulation head and a missing closing `>` both fail the simulation check |
| NonspatialSim.QualifiedNameNoComma | src/sed_tooling/sed_model/nonspatial_sim.py:15 | a qualified name never contains a comma |
| NonspatialSim.BareArgumentsRejected | src/sed_tooling/sed_model/nonspatial_sim.py:15-17 | `A<B,C>` is a type on its own but fails inside the head, because `(?R)` makes every argument carry the head again |
| NonspatialSim.BareArgumentsGeneric | src/sed_tooling/sed_model/pattens.py:2 | `A<B,C>` matches the plain type pattern |
| UniformTimeCourse.ValidatePoints | src/sed_tooling/sed_model/uniform_time_course.py:24-29 | a reference is kept; any other string passes iff `int()` reads it, and then becomes the decimal text of the same integer; a failure is a `ValueError` on that string; an int or bool becomes its `str()` |
| UniformTimeCourse.IntTextNotReference | src/sed_tooling/sed_model/uniform_time_course.py:27-29 | the text of an integer is never a reference |
| UniformTimeCourse.PointsIdempotent | src/sed_tooling/sed_model/uniform_time_course.py:24-29 | for strings and ints, validating the returned text again gives the same result |
| UniformTimeCourse.BoolPointsNotIdempotent | src/sed_tooling/sed_model/uniform_time_course.py:27-29 | a bool becomes "True", which then fails `int()`; idempotence does not extend to bools |
| UniformTimeCourse.PaddedPointsCanonical | src/sed_tooling/sed_model/uniform_time_course.py:28-29 | "007" is read and returned as "7" |
| UniformTimeCourse.SevenDigits | src/sed_tooling/sed_model/uniform_time_course.py:28 | `int("007")` is 7 |
| UniformTimeCourse.SevenValue | src/sed_tooling/sed_model/uniform_time_course.py:28 | the digits "007" have the value 7 |
| UniformTimeCourse.ReferencePointsKept | src/sed_tooling/sed_model/uniform_time_course.py:27 | a reference such as "#n" is kept as written |
| UniformTimeCourse.FractionPointsRejected | src/sed_tooling/sed_model/uniform_time_course.py:28 | "1.5" fails `int()` with a `ValueError` |
| UniformTimeCourse.ValidateTimes | src/sed_tooling/sed_model/uniform_time_course.py:31-38 | `None` passes as `None`; a reference is kept; any other string passes iff `float()` reads it and becomes the text of that float; a failure is a `ValueError` on that string |
| UniformTimeCourse.TimesRecheck | src/sed_tooling/sed_model/uniform_time_course.py:31-38 | what the time validator returns for a string or float passes it again |
| UniformTimeCourse.Validate | src/sed_tooling/sed_model/uniform_time_course.py:11-38 | a time course passes every validator iff each field passes its own; the result holds the rewritten values; the first failing field is the one reported |
| SimulationTypes.TypeCheck | src/sed_tooling/sed_model/steady_state.py:12-16 | the type passes iff it is exactly the one literal of its scheme and kind, and is returned unchanged; otherwise the type assertion fails |
| SimulationTypes.TypeLiteralsDistinct | src/sed_tooling/sed_model/uniform_time_course.py:21-111 | the literals of different schemes or kinds differ, so each class accepts a type no other class accepts |
| SimulationTypes.NonspatialLiteralsAccepted | src/sed_tooling/sed_model/nonspatial_sim.py:12-30 | every nonspatial literal also passes the parent class's recursive pattern |
| SimulationTypes.ValidateFixed | src/sed_tooling/sed_model/steady_state.py:9-46 | a steady-state or one-step simulation (one_step.py has the same validators) passes every validator iff each field passes its own; the result is the parameters' text; a bad identifier or a wrong literal is the error reported |
| Plots.PlotTypes | src/sed_tooling/sed_model/plots.py:16-21 | each plot class's type check passes iff the type is exactly its literal; the general type pattern adds nothing |
| Plots.CheckSims | src/sed_tooling/sed_model/plots.py:23-28 | the simulations pass iff every one is a whole reference, and are returned unchanged |
| Plots.ValidateCurve | src/sed_tooling/sed_model/plots.py:10-34 | a curve passes every validator iff its identifier, literal type, simulations and both axes are legal; a bad identifier, then a wrong type, is the error reported |
| Plots.ValidateSurface | src/sed_tooling/sed_model/plots.py:37-62 | the same for a surface and its three axes |
| Plots.CheckMember | src/sed_tooling/sed_model/plots.py:80-84 | a string member passes iff it is a reference; a dict member passes iff the record builds from it, with the build's error otherwise; other members are not checked |
| Plots.CheckMembers | src/sed_tooling/sed_model/plots.py:80-84 | the member loop passes iff every member passes; a failure is the first failing member's error |
| Plots.CheckCurves | src/sed_tooling/sed_model/plots.py:76-84 | the curves pass iff there is at least one and every member passes; the validator then returns `None`; an empty list fails the length assertion |
| Plots.CheckSurfaces | src/sed_tooling/sed_model/plots.py:98-106 | the same for surfaces |
| Plots.CurveBuilds | src/sed_tooling/sed_model/plots.py:84 | the keyword dict spelled from any curve builds a `Curve` |
| Plots.SurfaceBuilds | src/sed_tooling/sed_model/plots.py:106 | the keyword dict spelled from any surface builds a `Surface` |
| Plots.SpelledCurvePasses | src/sed_tooling/sed_model/plots.py:78-84 | a list holding the spelled dict of any curve passes the curve check |
| Plots.SpelledSurfacePasses | src/sed_tooling/sed_model/plots.py:100-106 | a list holding the spelled dict of any surface passes the surface check |
| Plots.UncheckedCurveExample | src/sed_tooling/sed_model/plots.py:31-34 | a curve whose x axis is not a reference fails its own validators, but its dict still passes the plot's check, because building does not run them |
| Plots.MemberExamples | src/sed_tooling/sed_model/plots.py:79-84 | an empty dict fails on its first missing field; an int is not checked; a bare name fails the reference check |
| Report.ReportTypes | src/sed_tooling/sed_model/report.py:16-21 | each report class's type check passes iff the type is exactly its literal |
| Report.ValidateDataReport | src/sed_tooling/sed_model/report.py:10-21 | a data report passes every validator iff its identifier is legal and its type is the literal; a bad identifier, then a wrong type, is the error reported |
| Report.CheckDataSet | src/sed_tooling/sed_model/report.py:42-46 | a string data set passes iff it is a reference; a dict passes iff a `DataReport` builds from it; any other value is not a mapping and raises `TypeError` |
| Report.CheckDataSets | src/sed_tooling/sed_model/report.py:42-46 | the inner loop passes iff every data set passes; a failure is the first failing data set's error |
| Report.CheckGroup | src/sed_tooling/sed_model/report.py:41-46 | a group passes iff it is non-empty and every data set passes; an empty group fails the length assertion |
| Report.CheckGroups | src/sed_tooling/sed_model/report.py:40-46 | the outer loop passes iff every group passes; a failure is the error of the first failing group, all before it passing |
| Report.CheckDataHierarchy | src/sed_tooling/sed_model/report.py:35-47 | the hierarchy passes iff every group in the dict passes, and is returned unchanged; a failure is the error of the first failing group in insertion order |
| Report.ValidateHDF5Report | src/sed_tooling/sed_model/report.py:24-47 | an HDF5 report passes every validator iff its identifier, literal type and every group are legal |
| Report.SpelledDataReportPasses | src/sed_tooling/sed_model/report.py:46 | the keyword dict spelled from any data report with well-typed metadata passes as a data set |
| Report.DataSetExamples | src/sed_tooling/sed_model/report.py:41-46 | an empty group fails; an int data set raises `TypeError`, which pydantic does not collect; a reference passes |
| SedmlDocument.GetTask | src/sed_converter/sedml_document.py:134 | looking a task up by id gives a task of the document with that id, and gives nothing iff no task has it |
| SedmlDocument.GetTaskFirst | src/sed_converter/sedml_document.py:134 | the task found is the first of the document with that id |
| SedmlDocument.EntriesPrefix | src/sed_converter/sedml_document.py:32-34 | the error text built for the first k errors is a prefix of the text for all of them |
| SedmlDocument.ErrorListed | src/sed_converter/sedml_document.py:29-35 | the reading-error message starts with the header that counts the errors and names the path, and lists every error with its index |
| SedmlDocument.ImageMembers | src/sed_converter/sedml_document.py:61-78 | an id is gathered from a list iff some element of the list gives it |
| SedmlDocument.OutputRefsMembers | src/sed_converter/sedml_document.py:62-78 | an output contributes an id iff it is a curve's x or y reference, a surface's x, y or z reference, or a data set's reference |
| SedmlDocument.NeededIdsExact | src/sed_converter/sedml_document.py:60-78 | an id is needed iff some output refers to it |
| SedmlDocument.VariablePairsKeys | src/sed_converter/sedml_document.py:87-90 | a variable id is recorded iff some variable of some kept data generator has it |
| SedmlDocument.DataGenTableExact | src/sed_converter/sedml_document.py:60-84 | a data generator is kept iff some output refers to its id and the document has a data generator with that id |
| SedmlDocument.VariableTableKeys | src/sed_converter/sedml_document.py:86-90 | the variable table's keys are exactly the ids of the kept data generators' variables |
| SedmlDocument.TableTaskRefs | src/sed_converter/sedml_document.py:105 | a task id is needed iff some variable in the table refers to it |
| SedmlDocument.TaskTableExact | src/sed_converter/sedml_document.py:102-109 | a task is kept iff some kept variable refers to it and the document has a task with that id |
| SedmlDocument.ModelsAndSimulationsAll | src/sed_converter/sedml_document.py:120-125 | every model and every simulation of the document is kept, whether a task needs it or not |
| SedmlDocument.ReachFailureSticks | src/sed_converter/sedml_document.py:133-138 | once the descent hits the recursion limit, later subtasks cannot rescue it |
| SedmlDocument.ReachFinishes | src/sed_converter/sedml_document.py:127-142 | with at least one frame of recursion left, a descent whose subtasks name no repeated task always finishes |
| SedmlDocument.ReachGrows | src/sed_converter/sedml_document.py:133-141 | each further subtask only adds references to what has been gathered |
| SedmlDocument.ReachCollectsPlain | src/sed_converter/sedml_document.py:139-141 | every plain task a subtask names contributes its model and simulation reference |
| SedmlDocument.Reach | src/sed_converter/sedml_document.py:127-142 | the descent through repeated tasks gathers only model and simulation references of plain tasks of the document |
| SedmlDocument.ReachMoreFuel | src/sed_converter/sedml_document.py:127-142 | more room on the stack never changes a descent that already finishes |
| SedmlDocument.SelfLoopNeverResolves | src/sed_converter/sedml_document.py:135-136 | a repeated task that names itself recurses until the recursion limit, however deep the stack |
| SedmlDocument.NestedExample | src/sed_converter/sedml_document.py:133-142 | nested repeated tasks gather the innermost plain task's references, and need one frame per level |
| SedmlDocument.NeededRefs | src/sed_converter/sedml_document.py:111-119 | the only failure of the task pass is the recursion error |
| SedmlDocument.NeededRefsFailureSticks | src/sed_converter/sedml_document.py:114-119 | once a descent hits the recursion limit, the task pass fails whatever follows |
| SedmlDocument.RepeatedReplaces | src/sed_converter/sedml_document.py:118-119 | a repeated task replaces, rather than adds to, the references gathered from the tasks before it |
| SedmlDocument.NeededDataGenIds | src/sed_converter/sedml_document.py:60-78 | the output loop gathers exactly the ids the outputs refer to |
| SedmlDocument.AddCurveRefs | src/sed_converter/sedml_document.py:64-68 | the curve loop adds exactly the curves' x and y references |
| SedmlDocument.AddSurfaceRefs | src/sed_converter/sedml_document.py:69-74 | the surface loop adds exactly the surfaces' x, y and z references |
| SedmlDocument.AddDataSetRefs | src/sed_converter/sedml_document.py:75-78 | the data-set loop adds exactly the data sets' references |
| SedmlDocument.AddTaskRefs | src/sed_converter/sedml_document.py:105-106 | the comprehension adds exactly the task references of the variables |
| SedmlDocument.SedMLDocument.constructor | src/sed_converter/sedml_document.py:26-47 | a new adapter holds the parsed document and empty tables |
| SedmlDocument.SedMLDocument.Open | src/sed_converter/sedml_document.py:26-50 | a document with reading errors raises `RuntimeError` with the error message; otherwise opening succeeds iff the task pass does, and the tables are the ones the four passes define |
| SedmlDocument.SedMLDocument.ProcessDocument | src/sed_converter/sedml_document.py:52-58 | running the four passes in order leaves each table equal to its definition on the document |
| SedmlDocument.SedMLDocument.ProcessTables | src/sed_converter/sedml_document.py:55-57 | the first three passes leave the data generator, variable, parameter and task tables equal to their definitions on the document |
| SedmlDocument.SedMLDocument.ErrorReport | src/sed_converter/sedml_document.py:31-34 | the message loop builds the header followed by one numbered entry per error, in order |
| SedmlDocument.SedMLDocument.ProcessOutputs | src/sed_converter/sedml_document.py:60-84 | the data-generator table gains exactly the document's data generators whose ids the outputs need |
| SedmlDocument.SedMLDocument.ProcessDataGens | src/sed_converter/sedml_document.py:86-100 | the variable and parameter tables gain every variable and parameter of the kept data generators, keyed by id, later ones winning |
| SedmlDocument.SedMLDocument.ProcessVariablesAndParams | src/sed_converter/sedml_document.py:102-109 | the task table gains exactly the document's tasks whose ids the kept variables name |
| SedmlDocument.SedMLDocument.ProcessTasks | src/sed_converter/sedml_document.py:111-125 | the pass fails iff a descent hits the recursion limit; otherwise the model and simulation tables gain every model and simulation of the document |
| SedmlDocument.SedMLDocument.DelveIntoRepeatedTask | src/sed_converter/sedml_document.py:127-142 | the recursive method gathers exactly the references the descent defines |
| SedmlCore.SpellingDecidesSpatial | src/sed_tooling/sed_converter/sedml_core.py:40-71 | membership in the spatial table depends on the exact spelling: `KISAO_0000337` and `KISAO:0000285` are spatial, `KISAO:0000337` and `KISAO:0000616` are not |
| SedmlCore.DigitInt | src/sed_tooling/sed_converter/sedml_core.py:116-118 | `int()` of one character succeeds iff it is a digit, giving that digit's value; otherwise it raises `ValueError` with Python's message |
| SedmlCore.ScanParts | src/sed_tooling/sed_converter/sedml_core.py:111-118 | a scan that succeeds leaves level and version each either -1 or a single digit; its only failure is a `ValueError` |
| SedmlCore.ScanPartsSucceeds | src/sed_tooling/sed_converter/sedml_core.py:114-118 | the scan succeeds iff every part that mentions "level" or "version" ends in a digit |
| SedmlCore.LastTaggedPartWins | src/sed_tooling/sed_converter/sedml_core.py:114-118 | the level (or version) read is the final digit of the last part that mentions it |
| SedmlCore.UntaggedStaysUnknown | src/sed_tooling/sed_converter/sedml_core.py:111-118 | when no part mentions the word, its reading stays -1 |
| SedmlCore.SbmlOntology | src/sed_tooling/sed_converter/sedml_core.py:119-125 | the ontology is produced iff both level and version were found; otherwise the error names what is missing, or both; the ontology is `sbml<L,V>` with the two digits in place |
| SedmlCore.SbmlPrefixFails | src/sed_tooling/sed_converter/sedml_core.py:110-120 | the string scanned is the prefix "sbml" itself, which mentions neither word, so any `sbml` namespace raises the neither-found error |
| SedmlCore.LevelVersionExample | src/sed_tooling/sed_converter/sedml_core.py:113-125 | a string such as `level3/version2` would read as level 3, version 2 and give `sbml<3,2>` |
| SedmlCore.ExampleSplit | src/sed_tooling/sed_converter/sedml_core.py:113-114 | `level3/version2` splits on `/` into its two parts |
| SedmlCore.ExampleScan | src/sed_tooling/sed_converter/sedml_core.py:114-118 | the parts `level3` and `version2` scan to level 3, version 2 |
| SedmlCore.Ontologies | src/sed_tooling/sed_converter/sedml_core.py:105-128 | a successful namespace loop gives a list that starts with "KiSAO" |
| SedmlCore.OntologiesOutcome | src/sed_tooling/sed_converter/sedml_core.py:105-128 | the loop succeeds iff no prefix is `sbml`, else it raises the neither-found error; on success the list is "KiSAO" followed by one "sim<spatial>" per `spatial` prefix |
| SedmlCore.ReadLevelVersion | src/sed_tooling/sed_converter/sedml_core.py:110-124 | the looping reader gives exactly the level and version the scan defines, or its error |
| SedmlCore.ScanFailureSticks | src/sed_tooling/sed_converter/sedml_core.py:114-118 | once a part fails `int()`, the scan fails with that error whatever follows |
| SedmlCore.ReadNamespace | src/sed_tooling/sed_converter/sedml_core.py:110-118 | reading a namespace leaves level and version each -1 or a single digit; its only failure is a `ValueError` |
| SedmlCore.ProtoSed.constructor | src/sed_tooling/sed_converter/sedml_core.py:96-103 | the staging record starts with no metadata and empty dependency and action lists |
| SedmlCore.SbmlRun | src/sed_tooling/sed_converter/sedml_core.py:143-144 | the number of leading models whose language mentions SBML: all before it are SBML and the one at it is not |
| SedmlCore.ConvertModels | src/sed_tooling/sed_converter/sedml_core.py:138-181 | the dependencies and actions gain exactly the records of the leading SBML models, and the metadata is untouched; the call succeeds iff every model is SBML, returning one variable per model; otherwise it raises the unknown-model `ValueError` |
| SedmlCore.ConvertedRecords | src/sed_tooling/sed_converter/sedml_core.py:146-174 | a load's source is its dependency's identifier and its target is the model id; both records build; the load's source has no `#`, so the load validator would reject it |
| SedmlCore.ConvertedDependencyChecked | src/sed_tooling/sed_converter/sedml_core.py:146-153 | the converted dependency passes its validators iff the model id has only identifier characters and the model source is a legal source |
| SedmlCore.TimeCourseClassesCrossed | src/sed_tooling/sed_converter/sedml_core.py:271-305 | each branch passes the type literal of the other class, so the chosen class's type check would reject it |
| SedmlCore.ParameterDictLastWins | src/sed_tooling/sed_converter/sedml_core.py:279-282 | the parameter dict has a key iff some parameter has that KiSAO id, and holds the value of the last such parameter |
| SedmlCore.LastPairIs | src/sed_tooling/sed_converter/sedml_core.py:279-282 | the last pair with a key decides that key's value |
| SedmlCore.TimeCourseAction | src/sed_tooling/sed_converter/sedml_core.py:271-305 | building the uniform-time-course action always fails: `model` is missing |
| SedmlCore.TimeCourseKwargs | src/sed_tooling/sed_converter/sedml_core.py:273-287 | the converter passes exactly the nine keywords `name`, `identifier`, `type`, `algorithm`, `algorithmParameters`, `numDataPoints`, `endTime`, `startTime`, `outputStartTime`, in that order, and never `model` |
| SedmlCore.TimeCourseModelMissing | src/sed_tooling/sed_converter/sedml_core.py:273-305 | the keyword arguments the converter passes build to the missing-`model` error |
| SedmlCore.ModelReported | src/sed_tooling/sed_converter/sedml_core.py:273-287 | when the fields before `model` are supplied as text and `model` is absent, the build reports `model` missing |
| SedmlCore.FirstThreeSupplied | src/sed_tooling/sed_converter/sedml_core.py:275-277 | the converter supplies name, identifier and type as strings |
| SedmlCore.SimStep | src/sed_tooling/sed_converter/sedml_core.py:266-305 | a matching simulation is passed over iff it is neither an analysis nor a uniform time course; an analysis raises `NotImplementedError` with the analysis message; a time course fails on the missing `model` |
| SedmlCore.SimsOutcomeOk | src/sed_tooling/sed_converter/sedml_core.py:259-305 | a plain task's simulation loop succeeds iff the task is handled |
| SedmlCore.SimsOutcome | src/sed_tooling/sed_converter/sedml_core.py:259-305 | a plain task's simulation loop fails only on an analysis or on the missing `model`, and its error is that of the first simulation with the task's simulation id whose handling raises, every earlier one with that id passing |
| SedmlCore.TaskOutcome | src/sed_tooling/sed_converter/sedml_core.py:193-305 | handling one task passes iff it is handled; a repeated task raises `TypeError` (iterating an int), a task of any other kind than plain or repeated raises `NotImplementedError`, and a plain task raises the error of its first failing simulation |
| SedmlCore.SimsConversion | src/sed_tooling/sed_converter/sedml_core.py:183-307 | the task loop fails only with one of those four errors |
| SedmlCore.SimsConversionOutcome | src/sed_tooling/sed_converter/sedml_core.py:183-307 | the simulation conversion succeeds iff every task is handled; its errors are the four the code can raise |
| SedmlCore.FirstUnhandledDecides | src/sed_tooling/sed_converter/sedml_core.py:193-256 | the first task that is not handled decides the outcome; a repeated task raises `TypeError` because an int is iterated |
| SedmlCore.HandledSkipped | src/sed_tooling/sed_converter/sedml_core.py:193-305 | a handled first task leaves the outcome to the remaining tasks |
| SedmlCore.ConvertSims | src/sed_tooling/sed_converter/sedml_core.py:183-307 | the looping conversion gives exactly the outcome the conversion function defines |
| SedmlCore.ConversionOutcome | src/sed_tooling/sed_converter/sedml_core.py:95-136 | converting succeeds iff no prefix is `sbml`, every model is SBML and every task is handled; an `sbml` prefix always gives the neither-found error |
| SedmlCore.Conversion | src/sed_tooling/sed_converter/sedml_core.py:94-136 | converting fails only with a `ValueError` (namespace or model) or one of the four task errors |
| SedmlCore.ConvertToSed | src/sed_tooling/sed_converter/sedml_core.py:94-136 | the outcome is the conversion's; the metadata stays `None`; the staged dependencies and actions are those of the leading SBML models, or empty when the namespace loop fails |
| SedmlCore.OntologiesFailureSticks | src/sed_tooling/sed_converter/sedml_core.py:108-125 | once a prefix fails, the namespace loop fails with that error whatever follows |
| SedCore.OntologyGate | src/sed_tooling/sed_converter/sed_core.py:28-32 | the gate raises `NotImplementedError` iff the ontologies contain "pe" or "cosim"; otherwise it lets the export through |
| SedCore.GateSeesOnlyMembers | src/sed_tooling/sed_converter/sed_core.py:28 | ontology lists with the same members get the same answer from the gate, whatever their order or repetitions |
| SedCore.ConvertToSedml | src/sed_tooling/sed_converter/sed_core.py:25-32 | reading the ontologies through `Metadata`, a name that is no field of the document, raises `AttributeError` for every document, so the gate's answer is never reached |
| SedCore.Ontologies | src/sed_tooling/sed_converter/sed_core.py:26 | reading `<attribute>.ontologies` succeeds iff the attribute is the `metadata` field, giving its ontologies; a name that is neither a field of the document nor an attribute of the model class raises `AttributeError` naming it |
| SedCore.ReadAttributeMissing | src/sed_tooling/sed_model/sed_document.py:16-26 | no declared field of the document is spelled `Metadata` |
| Pydantic.Build | src/sed_tooling/sed_converter/sedml_core.py:147-152 | building a record fails only on a missing or mistyped field; a built record has one entry per declared field, every required field was supplied, and an absent defaulted field is `None` |
| Pydantic.AsInt | src/sed_tooling/sed_model/metadata.py:10-11 | a lax `int` field accepts ints, bools (as 0 or 1), whole-valued floats and the strings `int()` reads, each with its value, and refuses everything else |
| Pydantic.CoerceStrOrInt | src/sed_tooling/sed_model/uniform_time_course.py:13 | a `Union[str, int]` field keeps strings and ints; another value passes iff the lax `int` reads it, and becomes that int |
| Pydantic.IntReadBack | src/sed_tooling/sed_model/metadata.py:10-11 | the text of an int, the float of an int, and the bool of 0 or 1 all read back as that int |
| PyNumbers.FloatAsIntRoundTrip | src/sed_tooling/sed_model/metadata.py:10-11 | the whole number a float `float(n)` holds is `n` again |
| Pydantic.GivenLastPassed | src/sed_tooling/sed_converter/sedml_core.py:147-152 | a keyword passed several times is given with the value passed last |
| Pydantic.GivenNeverPassed | src/sed_tooling/sed_converter/sedml_core.py:147-152 | a keyword never passed is reported missing by name |
| Pydantic.MissingRequiredFails | src/sed_tooling/sed_converter/sedml_core.py:147-152 | leaving out any required field makes the build fail |
| Pydantic.FirstMissingReported | src/sed_tooling/sed_converter/sedml_core.py:147-152 | when the fields before it are all accepted, the first missing required field is the one reported |
| Pydantic.MissingAfterText | src/sed_tooling/sed_converter/sedml_core.py:273-287 | when the fields before it are text fields supplied as text, a missing required field is the error of the whole build |
| Pydantic.TextFieldsAccepted | src/sed_tooling/sed_converter/sedml_core.py:147-152 | a record whose every field is supplied with a value of its declared kind builds, and keeps each value under its field's name |
| Pydantic.Text | src/sed_tooling/sed_model/dependency.py:8-11 | reading a text field succeeds iff it was supplied as a string, giving that string |
| Pydantic.CheckedText | src/sed_tooling/sed_model/dependency.py:13-17 | a field that was not supplied as text fails with a collected error; one that was is handed to its validator |
| Pydantic.TextListRead | src/sed_tooling/sed_model/plots.py:12 | a list spelled from strings reads back as those strings |
| PyNumbers.DigitChar | src/sed_tooling/sed_converter/sedml_core.py:125 | each digit value has one character, which reads back as that value |
| PyNumbers.IntText | src/sed_tooling/sed_model/uniform_time_course.py:29 | the text of an int is non-empty digits, led by `-` iff it is negative |
| PyNumbers.ParseInt | src/sed_tooling/sed_model/uniform_time_course.py:28 | `int()` only reads strings that contain a digit |
| PyNumbers.NatTextValue | src/sed_tooling/sed_model/uniform_time_course.py:29 | the text of a natural number is a run of digits whose value is that number |
| PyNumbers.IntTextRoundTrip | src/sed_tooling/sed_model/uniform_time_course.py:28-29 | `int(str(n))` is n for every int |
| PyNumbers.DigitsText | src/sed_tooling/sed_model/simulation.py:97 | a non-empty run of digits is read by `int()` as its value and is accepted by `float()` |
| PyNumbers.NotNumberStart | src/sed_tooling/sed_model/simulation.py:97 | a string that starts with none of the characters a number can start with is read by neither `int()` nor `float()` |
| PyNumbers.FloatTextNotReference | src/sed_tooling/sed_model/uniform_time_course.py:36-38 | the text of a float never starts with `#`, so it is never taken for a reference |
| PyNumbers.FloatOfIntIsFloat | src/sed_tooling/sed_model/uniform_time_course.py:14 | the text given to an int turned float is the text of a float |
| PyText.LStrip | src/sed_tooling/sed_model/simulation.py:46 | left-stripping removes exactly the leading whitespace |
| PyText.RStrip | src/sed_tooling/sed_model/simulation.py:46 | right-stripping removes exactly the trailing whitespace |
| PyText.Strip | src/sed_tooling/sed_model/simulation.py:46 | a stripped string neither starts nor ends with whitespace, and a string without whitespace is unchanged |
| PyText.IndexOf | src/sed_tooling/sed_converter/sedml_core.py:113 | the index found is the first occurrence of the separator, and there is none iff the separator does not occur |
| PyText.Split | src/sed_tooling/sed_model/simulation.py:33 | splitting gives at least one part, and at least two iff the separator occurs |
| PyText.SplitAt | src/sed_tooling/sed_model/simulation.py:33 | splitting at the first occurrence gives the part before it, then the split of the rest |
| PyText.SplitWhole | src/sed_tooling/sed_converter/sedml_core.py:114 | a string without the separator splits into itself alone |
| PyText.SplitPair | src/sed_tooling/sed_model/simulation.py:103 | two separator-free pieces joined by the separator split back into those two pieces |
| PyText.SplitJoin | src/sed_tooling/sed_converter/sedml_core.py:113-114 | joining the parts of a split with the separator gives back the string |
| PyText.ElementsBound | src/sed_tooling/sed_model/simulation.py:47 | a list has no more distinct elements than entries |
| PyText.DistinctByCount | src/sed_tooling/sed_model/simulation.py:47 | a list's length equals the size of its set iff its elements are distinct |
| PyValues.Keys | src/sed_tooling/sed_converter/sedml_core.py:147-152 | one keyword name per keyword argument, in order |
| PyValues.Lookup | src/sed_tooling/sed_converter/sedml_core.py:147-152 | a keyword lookup finds nothing iff the name was not passed |
| PyValues.LookupLastEntry | src/sed_tooling/sed_converter/sedml_core.py:147-152 | the value found for a name is the last one passed for it |
| Dicts.Put | src/sed_converter/sedml_document.py:84 | assigning a key sets its value; a new key goes to the end of the order, an existing one keeps its place |
| Dicts.LastValue | src/sed_converter/sedml_document.py:90 | a key has a value iff some pair carries it, and the value is one of that key's pairs |
| Dicts.PutAllContents | src/sed_converter/sedml_document.py:80-84 | after a run of assignments, a key is present iff it was before or was assigned, and holds its last assigned value; other keys are unchanged |
| Dicts.PutAllOrder | src/sed_converter/sedml_document.py:80-84 | a run of assignments keeps the existing keys' order and adds new keys after them |
| Dicts.PutAllConcat | src/sed_converter/sedml_document.py:86-100 | assigning two runs one after the other equals assigning their concatenation |
| Dicts.FilledKeys | src/sed_converter/sedml_document.py:80-84 | a table filled from pairs has exactly the pairs' keys, each with its last value |
| Dicts.KeyedIfKeys | src/sed_converter/sedml_document.py:80-84 | a filtered pairing has a key iff it is kept and some element has it |
| Dicts.PutEach | src/sed_converter/sedml_document.py:122-125 | the loop that stores every element under its id gives the dict the assignments define |
| Dicts.PutKept | src/sed_converter/sedml_document.py:80-84 | the loop that stores the elements whose id is needed gives the dict the filtered assignments define |

## Left out

- Reading files: `libsedml.readSedML`, the JSON reading in `validate_all_files` of
  `sed_core.py` and the `validate_all_files` loop of `sedml_core.py`. The parsed SED-ML
  document is a parameter of the model, given as a value.
- `convert_all_to_sed` in `sedml_core.py`: it only calls `convert_to_sed` once per
  parsed file and throws the results away, and `parsed_files` is filled by file reading.
- The `print` calls in both converters: output only.
- Float arithmetic and formatting. A float is represented by its `str()` text. The text
  `str(float(s))` gives is a function parameter of the time validators. An int turned
  into a float gets the text of the int followed by `.0`, which is exact only up to
  2^53 in magnitude.
- The range and change handling of repeated tasks in `_convert_sims` (vector and uniform
  ranges, MathML changes, the looped-simulation action). The loop that reaches it
  iterates over an int and raises `TypeError` first, so none of it can run.
- SedmlCore.ConvertSims: takes no staging record. Every append it could make is a
  time-course action, and building that action always fails first, so nothing reaches
  the staging record.
- SedmlCore.ConvertToSed: the list of variables that `_convert_models` returns is
  computed and then discarded, as in the code. The `Declarations`, `Inputs` and
  `Outputs` entries of `proto_sed` are never written and are not fields of the
  staging class.
- SedmlCore.ProtoSed: its action list holds load actions only, the only kind the
  converter can append.
- PyNumbers.ParseInt: Python's `int()` also reads non-ASCII decimal digits (`int('３')`
  is 3), and on the Python versions the project targets it refuses a numeral of more
  than 4300 digits. The model reads ASCII digits only and has no length limit. So
  `UniformTimeCourse.ValidatePoints` and `LegacyInput.Target` refuse Unicode-digit text
  that Python accepts, and accept very long numerals that Python refuses.
- PyNumbers.ParsesAsFloat: Python's `float()` also reads non-ASCII decimal digits.
  The model reads ASCII digits only, so the float-text validators refuse such text.
- SedCore.Ontologies: every name that is not a field of the document is treated as
  missing. The attributes pydantic's `BaseModel` defines itself (`model_fields`, `copy`,
  ...) are present on the document; reading `ontologies` through one of them raises
  `AttributeError` about `ontologies` instead. `convert_to_sedml` only ever reads
  `Metadata`, which is neither.
- SedmlCore.DigitInt: Python's `int()` also accepts non-ASCII digits. Only ASCII digits
  are modelled; the level and version tests are about ASCII text.
- PyValues.Repr: quoting and escaping follow Python's `repr` for plain text only. A
  string containing quotes or control characters is not escaped as Python would.
- Pydantic.Build: pydantic collects every field error and reports them together. The
  model reports the first one in declaration order. Which fields fail is the same.
- Pydantic.AsInt: a whole-valued float is read only in the form `str()` gives it
  below 10^16 (digits followed by `.0`); the exponent form of larger floats is refused.
  Strings are read by `int()`'s rules; pydantic's own string rules and its limits on
  the length of integer strings are not modelled.
- Patterns.StdlibCompile: the standard `re` module is modelled only as failing on a
  pattern that contains `(?R)`. Its other compile errors (an unbalanced parenthesis,
  say) are not modelled; every pattern the records use is otherwise well formed.
- SedmlDocument.Reach: the depth of the recursion is a `fuel` parameter standing for
  Python's recursion limit. Running out of it is the `RecursionError` case.
- Regular expressions are modelled as the languages they accept, one predicate per
  pattern. There is no general regex engine.
- SimulationTypes.ValidateFixed: covers the steady-state and one-step classes. The
  uniform-time-course classes have extra fields and are covered by
  `UniformTimeCourse.Validate`.
- `spatial_sim.py` and `cosimulation.py` of the newer snapshot: their only code is type
  checks that hand `(?R)` to the standard `re` module, so they always raise. That
  behaviour is `Patterns.StdlibCompile`; the grammar itself is covered through
  `nonspatial_sim.py`.
- The `declarations.py` files: records with no logic. Their lists appear only as fields
  of the document records.
- Pydantic's JSON dump and parse: library code. The round trip is stated as the
  idempotence of the validators that rewrite values (`UniformTimeCourse.PointsIdempotent`,
  `UniformTimeCourse.TimesRecheck`).
- `src/sed_converter/core.py`: command-line parsing, zip extraction and directory
  walking, all I/O.
- `noxfile.py`: build and test configuration.
- `Plot2D` and `Plot3D` do not derive from `BaseModel`, so their decorators do nothing.
  Their checks are modelled as the functions they are (`Plots.CheckCurves`,
  `Plots.CheckSurfaces`).
- `simulation.py`, `plots.py` and `report.py` import `action` and `pattens` as top-level
  modules. Those names only resolve with the model directory on the import path. The
  model assumes they do.
- Stale or always-failing copies: `src/sed_converter/sedml/sedml_document.py` and
  `src/sed_converter/SedML/SedMLDocument.py` iterate over ints and always raise
  `TypeError`; the `sedml_core.py`/`SedMLCore.py` stubs under `src/sed_converter` and
  `sed_converter` spell their constructor `__int__`, so it never runs, and export
  nothing; the root `sed_converter/*` records are superseded or broken;
  `src/sed_model/uniform_time_course.py` only stores floats;
  `src/sed_converter/ontologies/simulation/uniform_time_course.py` calls `super` wrongly.
- Twins with no distinct behaviour, modelled once: `Dependency.py` beside
  `dependency.py`, `Metadata.py` beside `metadata.py` (its field is named `Ontologies`),
  and `src/sed_converter/sed/sed_document.py`, which has the dispatch of
  `src/sed_tooling/sed_model/sed_document.py` with capitalised fields.
- The legacy `src/sed_converter/sed/sed_core.py` reads `sed_doc.metadata` on a class
  whose field is `Metadata`. That twin of the export gate is not modelled separately;
  `SedCore.OntologyGate` is the gate both copies share.
- Concurrency: none in the source.
