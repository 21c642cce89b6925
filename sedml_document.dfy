/** The SED-ML reading adapter (src/sed_converter/sedml_document.py). The document that
    `libsedml` parses is given as a value; the adapter keeps it and fills id-keyed tables
    in four passes, each reading the table the pass before it filled: the data generators
    the outputs refer to, their variables and parameters, the tasks those variables name,
    then every model and simulation. */
module SedmlDocument {
  import opened Outcomes
  import opened PyText
  import opened PyNumbers
  import opened Dicts

  // ------------------------------------------------------------- the parsed document

  datatype Curve = Curve(xDataRef: string, yDataRef: string)
  datatype Surface = Surface(xDataRef: string, yDataRef: string, zDataRef: string)
  datatype DataSet = DataSet(dataRef: string)

  /** The outputs of a document: 2D plots, 3D plots, reports, and any other kind. */
  datatype Output =
    | Plot2D(curves: seq<Curve>)
    | Plot3D(surfaces: seq<Surface>)
    | Report(dataSets: seq<DataSet>)
    | OtherOutput

  datatype Variable = Variable(id: string, taskRef: string)
  datatype Parameter = Parameter(id: string, value: string)
  datatype DataGenerator = DataGenerator(id: string, variables: seq<Variable>, parameters: seq<Parameter>)

  /** A plain task runs one simulation of one model; a repeated task runs the tasks its
      subtasks name; any other kind of task is known by its id only. */
  datatype Task =
    | PlainTask(id: string, name: string, modelRef: string, simRef: string)
    | RepeatedTask(id: string, subtasks: seq<string>)
    | OtherTask(id: string)

  datatype Model = Model(id: string, name: string, language: string, source: string)

  datatype AlgorithmParameter = AlgorithmParameter(kisaoId: string, value: string)
  datatype Algorithm = Algorithm(kisaoId: string, parameters: seq<AlgorithmParameter>)

  /** The kind of a simulation; the times of a uniform time course are the texts of
      their floats. */
  datatype SimulationKind =
    | UniformTimeCourse(initialTime: string, outputStartTime: string, outputEndTime: string, numberOfPoints: int)
    | SteadyState
    | OneStep
    | Analysis

  datatype Simulation = Simulation(id: string, name: string, kind: SimulationKind, algorithm: Algorithm)

  /** A document as `libsedml.readSedML` gives it: the `repr` of each reading error, the
      prefixes of its XML namespaces, then its lists in document order. */
  datatype SedML = SedML(
    errors: seq<string>, namespacePrefixes: seq<string>,
    outputs: seq<Output>, dataGenerators: seq<DataGenerator>, tasks: seq<Task>,
    models: seq<Model>, simulations: seq<Simulation>)

  function CurveX(c: Curve): string { c.xDataRef }
  function CurveY(c: Curve): string { c.yDataRef }
  function SurfaceX(s: Surface): string { s.xDataRef }
  function SurfaceY(s: Surface): string { s.yDataRef }
  function SurfaceZ(s: Surface): string { s.zDataRef }
  function DataRef(d: DataSet): string { d.dataRef }
  function DataGenId(g: DataGenerator): string { g.id }
  function VariableId(v: Variable): string { v.id }
  function VariableTaskRef(v: Variable): string { v.taskRef }
  function ParameterId(p: Parameter): string { p.id }
  function TaskId(t: Task): string { t.id }
  function ModelId(m: Model): string { m.id }
  function SimulationId(s: Simulation): string { s.id }

  /** `getTask(id)`: the first task with that id, or `None`. */
  function GetTask(tasks: seq<Task>, id: string): (r: Option<Task>)
    ensures r.Some? ==> r.value in tasks && r.value.id == id
    ensures r.None? <==> forall i :: 0 <= i < |tasks| ==> tasks[i].id != id
  {
    if tasks == [] then None
    else if tasks[0].id == id then Some(tasks[0])
    else GetTask(tasks[1..], id)
  }

  /** The task found is the first of the document with that id. */
  lemma {:induction false} GetTaskFirst(tasks: seq<Task>, id: string)
    requires GetTask(tasks, id).Some?
    ensures exists k :: 0 <= k < |tasks| && GetTask(tasks, id).value == tasks[k]
                        && tasks[k].id == id && forall j :: 0 <= j < k ==> tasks[j].id != id
  {
    if tasks[0].id != id {
      GetTaskFirst(tasks[1..], id);
      var k :| 0 <= k < |tasks| - 1 && GetTask(tasks[1..], id).value == tasks[1..][k]
               && tasks[1..][k].id == id && forall j :: 0 <= j < k ==> tasks[1..][j].id != id;
      assert forall j :: 1 <= j < k + 1 ==> tasks[j] == tasks[1..][j - 1];
      assert tasks[k + 1] == tasks[1..][k];
    } else {
      assert GetTask(tasks, id).value == tasks[0];
    }
  }

  // ------------------------------------------------------------- the reading errors

  function Header(path: string, n: nat): string {
    "Found " + IntText(n) + " errors reading SedML@" + path + ":\n\n"
  }

  function Entry(i: nat, repr: string): string {
    "\t>(" + IntText(i) + ")> " + repr
  }

  function Entries(reprs: seq<string>): string {
    if reprs == [] then ""
    else Entries(reprs[..|reprs| - 1]) + Entry(|reprs| - 1, reprs[|reprs| - 1])
  }

  /** The message grows by one entry per error. */
  lemma EntriesNext(head: string, reprs: seq<string>, i: nat)
    requires i < |reprs|
    ensures head + Entries(reprs[..i + 1]) == (head + Entries(reprs[..i])) + Entry(i, reprs[i])
  {
    assert reprs[..i + 1][..i] == reprs[..i];
    var done, next := Entries(reprs[..i]), Entry(i, reprs[i]);
    assert head + (done + next) == (head + done) + next;
  }

  /** The message of the `RuntimeError` raised for a document read with errors. */
  function ErrorMessage(path: string, reprs: seq<string>): string {
    Header(path, |reprs|) + Entries(reprs)
  }

  /** The entries for the first errors begin the entries for all of them. */
  lemma {:induction false} EntriesPrefix(reprs: seq<string>, k: nat)
    requires k <= |reprs|
    ensures |Entries(reprs[..k])| <= |Entries(reprs)|
    ensures Entries(reprs)[..|Entries(reprs[..k])|] == Entries(reprs[..k])
    decreases |reprs| - k
  {
    if k < |reprs| {
      EntriesPrefix(reprs, k + 1);
      var short, long := Entries(reprs[..k]), Entries(reprs[..k + 1]);
      assert reprs[..k + 1][..k] == reprs[..k];
      assert long == short + Entry(k, reprs[k]);
      assert long[..|short|] == short;
    } else {
      assert reprs[..k] == reprs;
    }
  }

  /** The message names the file and the number of errors, then lists every error with
      its index, in order. */
  lemma ErrorListed(path: string, reprs: seq<string>, i: nat)
    requires i < |reprs|
    ensures StartsWith(ErrorMessage(path, reprs), Header(path, |reprs|))
    ensures Contains(ErrorMessage(path, reprs), Entry(i, reprs[i]))
  {
    var head := Header(path, |reprs|);
    EntriesPrefix(reprs, i + 1);
    assert reprs[..i + 1][..i] == reprs[..i];
    var before := Entries(reprs[..i]);
    PrefixedEntryOccurs(head, Entries(reprs), before, Entry(i, reprs[i]));
  }

  /** A text that `body` begins with, after `prefix`, occurs in `head + body` right after
      `head` and `prefix`. */
  lemma PrefixedEntryOccurs(head: string, body: string, prefix: string, entry: string)
    requires |prefix + entry| <= |body| && body[..|prefix + entry|] == prefix + entry
    ensures StartsWith(head + body, head)
    ensures OccursAt(head + body, entry, |head| + |prefix|)
  {
    var m := head + body;
    var at := |head| + |prefix|;
    assert m[..|head|] == head;
    assert m[at..at + |entry|] == body[|prefix|..|prefix| + |entry|];
    assert body[|prefix|..|prefix| + |entry|] == (prefix + entry)[|prefix|..];
  }

  // ------------------------------------------------------------- what the passes read

  /** The ids `f` gives for the elements of `xs`, gathered one element at a time. */
  function Image<T>(xs: seq<T>, f: T -> string): set<string> {
    if xs == [] then {} else Image(xs[..|xs| - 1], f) + {f(xs[|xs| - 1])}
  }

  lemma {:induction false} ImageMembers<T>(xs: seq<T>, f: T -> string, k: string)
    ensures k in Image(xs, f) <==> exists i :: 0 <= i < |xs| && f(xs[i]) == k
  {
    if xs != [] {
      var init := xs[..|xs| - 1];
      ImageMembers(init, f, k);
      if exists i :: 0 <= i < |init| && f(init[i]) == k {
        var i :| 0 <= i < |init| && f(init[i]) == k;
        assert xs[i] == init[i];
      }
      if exists i :: 0 <= i < |xs| && f(xs[i]) == k {
        var i :| 0 <= i < |xs| && f(xs[i]) == k;
        if i < |init| { assert init[i] == xs[i]; }
      }
    }
  }

  /** The data generator ids one output refers to. */
  function OutputRefs(o: Output): set<string> {
    match o
    case Plot2D(cs) => Image(cs, CurveX) + Image(cs, CurveY)
    case Plot3D(ss) => Image(ss, SurfaceX) + Image(ss, SurfaceY) + Image(ss, SurfaceZ)
    case Report(ds) => Image(ds, DataRef)
    case OtherOutput => {}
  }

  /** The data generator ids the outputs refer to. */
  function NeededIds(outputs: seq<Output>): set<string> {
    if outputs == [] then {}
    else NeededIds(outputs[..|outputs| - 1]) + OutputRefs(outputs[|outputs| - 1])
  }

  /** `k` is an X or Y reference of a curve, an X, Y or Z reference of a surface, or the
      data reference of a data set of the output. */
  predicate Refers(o: Output, k: string) {
    match o
    case Plot2D(cs) => exists j :: 0 <= j < |cs| && (cs[j].xDataRef == k || cs[j].yDataRef == k)
    case Plot3D(ss) => exists j :: 0 <= j < |ss| && (ss[j].xDataRef == k || ss[j].yDataRef == k || ss[j].zDataRef == k)
    case Report(ds) => exists j :: 0 <= j < |ds| && ds[j].dataRef == k
    case OtherOutput => false
  }

  lemma OutputRefsMembers(o: Output, k: string)
    ensures k in OutputRefs(o) <==> Refers(o, k)
  {
    match o
    case Plot2D(cs) =>
      ImageMembers(cs, CurveX, k);
      ImageMembers(cs, CurveY, k);
    case Plot3D(ss) =>
      ImageMembers(ss, SurfaceX, k);
      ImageMembers(ss, SurfaceY, k);
      ImageMembers(ss, SurfaceZ, k);
    case Report(ds) =>
      ImageMembers(ds, DataRef, k);
    case OtherOutput =>
  }

  /** An id is needed exactly when some output refers to it. */
  lemma {:induction false} NeededIdsExact(outputs: seq<Output>, k: string)
    ensures k in NeededIds(outputs) <==> exists i :: 0 <= i < |outputs| && Refers(outputs[i], k)
  {
    if outputs != [] {
      var init, last := outputs[..|outputs| - 1], outputs[|outputs| - 1];
      NeededIdsExact(init, k);
      OutputRefsMembers(last, k);
      if exists i :: 0 <= i < |init| && Refers(init[i], k) {
        var i :| 0 <= i < |init| && Refers(init[i], k);
        assert outputs[i] == init[i];
      }
      if exists i :: 0 <= i < |outputs| && Refers(outputs[i], k) {
        var i :| 0 <= i < |outputs| && Refers(outputs[i], k);
        if i < |init| { assert init[i] == outputs[i]; }
      }
    }
  }

  /** The assignments of the second pass to the variable table, generator by generator. */
  function VariablePairs(gens: seq<DataGenerator>): seq<(string, Variable)> {
    if gens == [] then []
    else VariablePairs(gens[..|gens| - 1]) + Keyed(gens[|gens| - 1].variables, VariableId)
  }

  /** The assignments of the second pass to the parameter table. */
  function ParameterPairs(gens: seq<DataGenerator>): seq<(string, Parameter)> {
    if gens == [] then []
    else ParameterPairs(gens[..|gens| - 1]) + Keyed(gens[|gens| - 1].parameters, ParameterId)
  }

  /** The pairs of one more generator follow those of the ones before it. */
  lemma GenPairsNext(gens: seq<DataGenerator>, i: nat)
    requires i < |gens|
    ensures VariablePairs(gens[..i + 1]) == VariablePairs(gens[..i]) + Keyed(gens[i].variables, VariableId)
    ensures ParameterPairs(gens[..i + 1]) == ParameterPairs(gens[..i]) + Keyed(gens[i].parameters, ParameterId)
  {
    assert gens[..i + 1][..i] == gens[..i];
  }

  /** A variable id is assigned exactly when some variable of some generator has it. */
  lemma {:induction false} VariablePairsKeys(gens: seq<DataGenerator>, k: string)
    ensures HasKey(VariablePairs(gens), k) <==>
      exists i, j :: 0 <= i < |gens| && 0 <= j < |gens[i].variables| && gens[i].variables[j].id == k
  {
    if gens != [] {
      var init, last := gens[..|gens| - 1], gens[|gens| - 1];
      var tail := Keyed(last.variables, VariableId);
      VariablePairsKeys(init, k);
      HasKeyConcat(VariablePairs(init), tail, k);
      if HasKey(tail, k) {
        var j :| 0 <= j < |tail| && tail[j].0 == k;
        assert gens[|gens| - 1].variables[j].id == k;
      }
      if exists i, j :: 0 <= i < |init| && 0 <= j < |init[i].variables| && init[i].variables[j].id == k {
        var i, j :| 0 <= i < |init| && 0 <= j < |init[i].variables| && init[i].variables[j].id == k;
        assert gens[i] == init[i];
      }
      if exists i, j :: 0 <= i < |gens| && 0 <= j < |gens[i].variables| && gens[i].variables[j].id == k {
        var i, j :| 0 <= i < |gens| && 0 <= j < |gens[i].variables| && gens[i].variables[j].id == k;
        if i < |init| {
          assert init[i] == gens[i];
        } else {
          assert tail[j].0 == k;
        }
      }
    }
  }

  // ------------------------------------------------------------- the tables

  /** `data_gen_dict` after the first pass. */
  function DataGenTable(doc: SedML): (d: Dict<DataGenerator>)
    ensures d.Valid()
  {
    var pairs := KeyedIf(doc.dataGenerators, DataGenId, NeededIds(doc.outputs));
    FilledKeys(pairs, "");
    PutAll(Empty(), pairs)
  }

  /** `variable_dict` after the second pass. */
  function VariableTable(doc: SedML): (d: Dict<Variable>)
    ensures d.Valid()
  {
    var pairs := VariablePairs(DataGenTable(doc).Values());
    FilledKeys(pairs, "");
    PutAll(Empty(), pairs)
  }

  /** `parameter_dict` after the second pass. */
  function ParameterTable(doc: SedML): (d: Dict<Parameter>)
    ensures d.Valid()
  {
    var pairs := ParameterPairs(DataGenTable(doc).Values());
    FilledKeys(pairs, "");
    PutAll(Empty(), pairs)
  }

  /** `task_dict` after the third pass: the tasks named by the variables. */
  function TaskTable(doc: SedML): (d: Dict<Task>)
    ensures d.Valid()
  {
    var pairs := KeyedIf(doc.tasks, TaskId, Image(VariableTable(doc).Values(), VariableTaskRef));
    FilledKeys(pairs, "");
    PutAll(Empty(), pairs)
  }

  /** `model_dict` after the fourth pass. */
  function ModelTable(doc: SedML): (d: Dict<Model>)
    ensures d.Valid()
  {
    FilledKeys(Keyed(doc.models, ModelId), "");
    PutAll(Empty(), Keyed(doc.models, ModelId))
  }

  /** `simulation_dict` after the fourth pass. */
  function SimulationTable(doc: SedML): (d: Dict<Simulation>)
    ensures d.Valid()
  {
    FilledKeys(Keyed(doc.simulations, SimulationId), "");
    PutAll(Empty(), Keyed(doc.simulations, SimulationId))
  }

  /** The data generator table holds exactly the generators whose id some output refers
      to. */
  lemma DataGenTableExact(doc: SedML, k: string)
    ensures k in DataGenTable(doc).items <==>
      (exists i :: 0 <= i < |doc.outputs| && Refers(doc.outputs[i], k)) &&
      (exists j :: 0 <= j < |doc.dataGenerators| && doc.dataGenerators[j].id == k)
  {
    var needed := NeededIds(doc.outputs);
    var pairs := KeyedIf(doc.dataGenerators, DataGenId, needed);
    FilledKeys(pairs, k);
    KeyedIfKeys(doc.dataGenerators, DataGenId, needed, k);
    NeededIdsExact(doc.outputs, k);
  }

  /** The variable table is keyed by the ids of the variables of the retained
      generators. */
  lemma VariableTableKeys(doc: SedML, k: string)
    ensures k in VariableTable(doc).items <==>
      exists i, j :: 0 <= i < |DataGenTable(doc).Values()| && 0 <= j < |DataGenTable(doc).Values()[i].variables|
        && DataGenTable(doc).Values()[i].variables[j].id == k
  {
    var gens := DataGenTable(doc).Values();
    FilledKeys(VariablePairs(gens), k);
    VariablePairsKeys(gens, k);
  }

  /** A task reference is among the references of the table's values exactly when some
      entry of the table carries it. */
  lemma TableTaskRefs(table: Dict<Variable>, k: string)
    requires table.Valid()
    ensures k in Image(table.Values(), VariableTaskRef) <==>
      exists key :: key in table.items && table.items[key].taskRef == k
  {
    var vars := table.Values();
    ImageMembers(vars, VariableTaskRef, k);
    if exists i :: 0 <= i < |vars| && vars[i].taskRef == k {
      var i :| 0 <= i < |vars| && vars[i].taskRef == k;
      assert table.order[i] in Elements(table.order);
      assert table.items[table.order[i]].taskRef == k;
    }
    if exists key :: key in table.items && table.items[key].taskRef == k {
      var key :| key in table.items && table.items[key].taskRef == k;
      assert key in Elements(table.order);
      var i :| 0 <= i < |table.order| && table.order[i] == key;
      assert VariableTaskRef(vars[i]) == k;
    }
  }

  /** The task table holds exactly the tasks whose id is the task reference of a variable
      in the variable table; parameters play no part. */
  lemma TaskTableExact(doc: SedML, k: string)
    ensures k in TaskTable(doc).items <==>
      (exists key :: key in VariableTable(doc).items && VariableTable(doc).items[key].taskRef == k) &&
      (exists j :: 0 <= j < |doc.tasks| && doc.tasks[j].id == k)
  {
    var table := VariableTable(doc);
    var needed := Image(table.Values(), VariableTaskRef);
    var pairs := KeyedIf(doc.tasks, TaskId, needed);
    assert TaskTable(doc) == PutAll(Empty(), pairs);
    FilledKeys(pairs, k);
    KeyedIfKeys(doc.tasks, TaskId, needed, k);
    TableTaskRefs(table, k);
    assert (exists j :: 0 <= j < |doc.tasks| && TaskId(doc.tasks[j]) == k) <==>
      (exists j :: 0 <= j < |doc.tasks| && doc.tasks[j].id == k);
  }

  /** Every model and every simulation of the document is in its table, and nothing
      else. */
  lemma ModelsAndSimulationsAll(doc: SedML, k: string)
    ensures k in ModelTable(doc).items <==> exists j :: 0 <= j < |doc.models| && doc.models[j].id == k
    ensures k in SimulationTable(doc).items <==> exists j :: 0 <= j < |doc.simulations| && doc.simulations[j].id == k
  {
    FilledKeys(Keyed(doc.models, ModelId), k);
    FilledKeys(Keyed(doc.simulations, SimulationId), k);
    var mp, sp := Keyed(doc.models, ModelId), Keyed(doc.simulations, SimulationId);
    if exists j :: 0 <= j < |doc.models| && doc.models[j].id == k {
      var j :| 0 <= j < |doc.models| && doc.models[j].id == k;
      assert mp[j].0 == k;
    }
    if exists j :: 0 <= j < |doc.simulations| && doc.simulations[j].id == k {
      var j :| 0 <= j < |doc.simulations| && doc.simulations[j].id == k;
      assert sp[j].0 == k;
    }
  }

  // ------------------------------------------------------------- repeated tasks

  /** The model and simulation references gathered from tasks. */
  datatype Refs = Refs(models: set<string>, sims: set<string>)

  /** No subtask names a repeated task of the document. */
  predicate NoRepeatedTargets(all: seq<Task>, subtasks: seq<string>) {
    subtasks == [] ||
    (NoRepeatedTargets(all, subtasks[..|subtasks| - 1]) &&
     var target := GetTask(all, subtasks[|subtasks| - 1]);
     !(target.Some? && target.value.RepeatedTask?))
  }

  /** `__delve_into_repeated_task` for a repeated task whose subtasks name `subtasks`, with
      `fuel` frames of recursion left: `None` stands for the `RecursionError` raised when
      they run out. Plain targets give their two references, repeated ones what the
      descent into them gives, and an id no task has gives nothing. */
  function Reach(all: seq<Task>, subtasks: seq<string>, fuel: nat): (r: Option<Refs>)
    ensures r.Some? ==> forall m :: m in r.value.models ==> exists t :: t in all && t.PlainTask? && t.modelRef == m
    ensures r.Some? ==> forall s :: s in r.value.sims ==> exists t :: t in all && t.PlainTask? && t.simRef == s
    decreases fuel, |subtasks|
  {
    if fuel == 0 then None
    else if subtasks == [] then Some(Refs({}, {}))
    else
      var prev := Reach(all, subtasks[..|subtasks| - 1], fuel);
      var target := GetTask(all, subtasks[|subtasks| - 1]);
      if prev.None? then None
      else if target.Some? && target.value.RepeatedTask? then
        var inner := Reach(all, target.value.subtasks, fuel - 1);
        if inner.None? then None
        else Some(Refs(prev.value.models + inner.value.models, prev.value.sims + inner.value.sims))
      else if target.Some? && target.value.PlainTask? then
        Some(Refs(prev.value.models + {target.value.modelRef}, prev.value.sims + {target.value.simRef}))
      else prev
  }

  /** With a frame of recursion left, a descent whose subtasks name no repeated task
      always finishes. */
  lemma {:induction false} ReachFinishes(all: seq<Task>, subtasks: seq<string>, fuel: nat)
    requires fuel > 0 && NoRepeatedTargets(all, subtasks)
    ensures Reach(all, subtasks, fuel).Some?
    decreases |subtasks|
  {
    if subtasks != [] {
      ReachFinishes(all, subtasks[..|subtasks| - 1], fuel);
    }
  }

  /** Once the recursion limit is hit, later subtasks do not matter. */
  lemma {:induction false} ReachFailureSticks(all: seq<Task>, subtasks: seq<string>, fuel: nat, k: nat)
    requires k <= |subtasks| && Reach(all, subtasks[..k], fuel).None?
    ensures Reach(all, subtasks, fuel).None?
    decreases |subtasks| - k
  {
    if k < |subtasks| {
      assert subtasks[..k + 1][..k] == subtasks[..k];
      ReachFailureSticks(all, subtasks, fuel, k + 1);
    } else {
      assert subtasks[..k] == subtasks;
    }
  }

  /** Each target's references are in the result: nothing a subtask reaches is lost. */
  lemma {:induction false} ReachGrows(all: seq<Task>, subtasks: seq<string>, fuel: nat)
    requires subtasks != [] && Reach(all, subtasks, fuel).Some?
    ensures Reach(all, subtasks[..|subtasks| - 1], fuel).Some?
    ensures Reach(all, subtasks[..|subtasks| - 1], fuel).value.models <= Reach(all, subtasks, fuel).value.models
    ensures Reach(all, subtasks[..|subtasks| - 1], fuel).value.sims <= Reach(all, subtasks, fuel).value.sims
  {
  }

  /** Every plain task a subtask names contributes its model and simulation. */
  lemma {:induction false} ReachCollectsPlain(all: seq<Task>, subtasks: seq<string>, fuel: nat, i: nat)
    requires Reach(all, subtasks, fuel).Some?
    requires i < |subtasks| && GetTask(all, subtasks[i]).Some? && GetTask(all, subtasks[i]).value.PlainTask?
    ensures GetTask(all, subtasks[i]).value.modelRef in Reach(all, subtasks, fuel).value.models
    ensures GetTask(all, subtasks[i]).value.simRef in Reach(all, subtasks, fuel).value.sims
    decreases |subtasks|
  {
    var init := subtasks[..|subtasks| - 1];
    if i < |init| {
      ReachGrows(all, subtasks, fuel);
      assert init[i] == subtasks[i];
      ReachCollectsPlain(all, init, fuel, i);
    }
  }

  /** More recursion room never changes a descent that already succeeds. */
  lemma {:induction false} ReachMoreFuel(all: seq<Task>, subtasks: seq<string>, fuel: nat)
    requires Reach(all, subtasks, fuel).Some?
    ensures Reach(all, subtasks, fuel + 1) == Reach(all, subtasks, fuel)
    decreases fuel, |subtasks|
  {
    if subtasks != [] {
      ReachMoreFuel(all, subtasks[..|subtasks| - 1], fuel);
      var target := GetTask(all, subtasks[|subtasks| - 1]);
      if target.Some? && target.value.RepeatedTask? {
        ReachMoreFuel(all, target.value.subtasks, fuel - 1);
      }
    }
  }

  /** A repeated task that names itself never comes back, however deep the stack. */
  lemma {:induction false} SelfLoopNeverResolves(all: seq<Task>, id: string, fuel: nat)
    requires GetTask(all, id) == Some(RepeatedTask(id, [id]))
    ensures Reach(all, [id], fuel) == None
    decreases fuel
  {
    if fuel > 0 {
      SelfLoopNeverResolves(all, id, fuel - 1);
      assert [id][..0] == [];
    }
  }

  /** A repeated task whose one subtask is a repeated task whose one subtask is the plain
      task (m1, s1) gathers exactly m1 and s1, and needs two frames to do so. */
  lemma NestedExample()
    ensures var all := [RepeatedTask("r1", ["r2"]), RepeatedTask("r2", ["t1"]), PlainTask("t1", "", "m1", "s1")];
      Reach(all, ["r2"], 2) == Some(Refs({"m1"}, {"s1"})) && Reach(all, ["r2"], 1) == None
  {
    var all := [RepeatedTask("r1", ["r2"]), RepeatedTask("r2", ["t1"]), PlainTask("t1", "", "m1", "s1")];
    var toR2, toT1: seq<string> := ["r2"], ["t1"];
    assert toR2[..0] == [] && toT1[..0] == [];
    assert GetTask(all, "r2") == Some(all[1]);
    assert GetTask(all, "t1") == Some(all[2]);
    assert Reach(all, [], 1) == Some(Refs({}, {}));
    assert Reach(all, [], 2) == Some(Refs({}, {}));
    assert Reach(all, toT1, 1) == Some(Refs({} + {"m1"}, {} + {"s1"}));
    assert Reach(all, toT1, 0) == None;
  }

  /** The fourth pass's needed references: a plain task adds its two, and a repeated task
      replaces what was gathered so far with what its descent gives. */
  function NeededRefs(tasks: seq<Task>, all: seq<Task>, fuel: nat): (r: Result<Refs>)
    ensures r.Err? ==> r.error == RecursionError
  {
    if tasks == [] then Ok(Refs({}, {}))
    else
      var prev :- NeededRefs(tasks[..|tasks| - 1], all, fuel);
      var task := tasks[|tasks| - 1];
      if task.PlainTask? then Ok(Refs(prev.models + {task.modelRef}, prev.sims + {task.simRef}))
      else if task.RepeatedTask? then
        (var found := Reach(all, task.subtasks, fuel);
         if found.None? then Err(RecursionError) else Ok(found.value))
      else Ok(prev)
  }

  /** One more task after a run that succeeded: a plain task adds its references, a
      repeated one replaces them with what its descent finds. */
  lemma NeededRefsNext(tasks: seq<Task>, all: seq<Task>, fuel: nat, i: nat, models: set<string>, sims: set<string>)
    requires i < |tasks| && NeededRefs(tasks[..i], all, fuel) == Ok(Refs(models, sims))
    ensures tasks[i].PlainTask? ==>
      NeededRefs(tasks[..i + 1], all, fuel) == Ok(Refs(models + {tasks[i].modelRef}, sims + {tasks[i].simRef}))
    ensures tasks[i].RepeatedTask? && Reach(all, tasks[i].subtasks, fuel).Some? ==>
      NeededRefs(tasks[..i + 1], all, fuel) == Ok(Reach(all, tasks[i].subtasks, fuel).value)
    ensures tasks[i].OtherTask? ==> NeededRefs(tasks[..i + 1], all, fuel) == Ok(Refs(models, sims))
  {
    assert tasks[..i + 1][..i] == tasks[..i];
    assert tasks[..i + 1][i] == tasks[i];
  }

  lemma {:induction false} NeededRefsFailureSticks(tasks: seq<Task>, all: seq<Task>, fuel: nat, k: nat)
    requires k <= |tasks| && NeededRefs(tasks[..k], all, fuel).Err?
    ensures NeededRefs(tasks, all, fuel).Err?
    decreases |tasks| - k
  {
    if k < |tasks| {
      assert tasks[..k + 1][..k] == tasks[..k];
      NeededRefsFailureSticks(tasks, all, fuel, k + 1);
    } else {
      assert tasks[..k] == tasks;
    }
  }

  /** A repeated task after a plain one drops the plain task's references. */
  lemma RepeatedReplaces()
    ensures var all := [PlainTask("t0", "", "m0", "s0"), RepeatedTask("r1", ["t1"]), PlainTask("t1", "", "m1", "s1")];
      NeededRefs(all[..2], all, 1) == Ok(Refs({"m1"}, {"s1"}))
  {
    var all := [PlainTask("t0", "", "m0", "s0"), RepeatedTask("r1", ["t1"]), PlainTask("t1", "", "m1", "s1")];
    var toT1: seq<string> := ["t1"];
    var first := all[..2][..1];
    assert first == [all[0]] && first[..0] == [];
    assert toT1[..0] == [];
    assert GetTask(all, "t1") == Some(all[2]);
    assert Reach(all, [], 1) == Some(Refs({}, {}));
    assert Reach(all, toT1, 1) == Some(Refs({} + {"m1"}, {} + {"s1"}));
    assert NeededRefs(first[..0], all, 1) == Ok(Refs({}, {}));
    assert NeededRefs(first, all, 1) == Ok(Refs({} + {"m0"}, {} + {"s0"}));
    var two := all[..2];
    assert two[..|two| - 1] == first && two[|two| - 1] == RepeatedTask("r1", toT1);
    assert NeededRefs(two, all, 1) == Ok(Refs({} + {"m1"}, {} + {"s1"}));
    assert ({} + {"m1"}) == {"m1"} && ({} + {"s1"}) == {"s1"};
  }

  // ------------------------------------------------------------- gathering ids

  /** The first loop of `_process_outputs`: every data reference of every output. */
  method NeededDataGenIds(outputs: seq<Output>) returns (needed: set<string>)
    ensures needed == NeededIds(outputs)
  {
    needed := {};
    var i := 0;
    while i < |outputs|
      invariant 0 <= i <= |outputs|
      invariant needed == NeededIds(outputs[..i])
    {
      match outputs[i] {
        case Plot2D(curves) => needed := AddCurveRefs(needed, curves);
        case Plot3D(surfaces) => needed := AddSurfaceRefs(needed, surfaces);
        case Report(dataSets) => needed := AddDataSetRefs(needed, dataSets);
        case OtherOutput =>
      }
      assert outputs[..i + 1][..i] == outputs[..i];
      i := i + 1;
    }
    assert outputs[..i] == outputs;
  }

  /** The X and Y references of the curves of a 2D plot. */
  method AddCurveRefs(needed: set<string>, curves: seq<Curve>) returns (r: set<string>)
    ensures r == needed + (Image(curves, CurveX) + Image(curves, CurveY))
  {
    r := needed;
    var j := 0;
    while j < |curves|
      invariant 0 <= j <= |curves|
      invariant r == needed + Image(curves[..j], CurveX) + Image(curves[..j], CurveY)
    {
      r := r + {curves[j].xDataRef};
      r := r + {curves[j].yDataRef};
      assert curves[..j + 1][..j] == curves[..j];
      j := j + 1;
    }
    assert curves[..j] == curves;
  }

  /** The X, Y and Z references of the surfaces of a 3D plot. */
  method AddSurfaceRefs(needed: set<string>, surfaces: seq<Surface>) returns (r: set<string>)
    ensures r == needed + (Image(surfaces, SurfaceX) + Image(surfaces, SurfaceY) + Image(surfaces, SurfaceZ))
  {
    r := needed;
    var j := 0;
    while j < |surfaces|
      invariant 0 <= j <= |surfaces|
      invariant r == needed + Image(surfaces[..j], SurfaceX) + Image(surfaces[..j], SurfaceY) + Image(surfaces[..j], SurfaceZ)
    {
      r := r + {surfaces[j].xDataRef};
      r := r + {surfaces[j].yDataRef};
      r := r + {surfaces[j].zDataRef};
      assert surfaces[..j + 1][..j] == surfaces[..j];
      j := j + 1;
    }
    assert surfaces[..j] == surfaces;
  }

  /** The data references of the data sets of a report. */
  method AddDataSetRefs(needed: set<string>, dataSets: seq<DataSet>) returns (r: set<string>)
    ensures r == needed + Image(dataSets, DataRef)
  {
    r := needed;
    var j := 0;
    while j < |dataSets|
      invariant 0 <= j <= |dataSets|
      invariant r == needed + Image(dataSets[..j], DataRef)
    {
      r := r + {dataSets[j].dataRef};
      assert dataSets[..j + 1][..j] == dataSets[..j];
      j := j + 1;
    }
    assert dataSets[..j] == dataSets;
  }

  /** The task references of the variables, added to `needed`. */
  method AddTaskRefs(needed: set<string>, vars: seq<Variable>) returns (r: set<string>)
    ensures r == needed + Image(vars, VariableTaskRef)
  {
    r := needed;
    var j := 0;
    while j < |vars|
      invariant 0 <= j <= |vars|
      invariant r == needed + Image(vars[..j], VariableTaskRef)
    {
      r := r + {vars[j].taskRef};
      assert vars[..j + 1][..j] == vars[..j];
      j := j + 1;
    }
    assert vars[..j] == vars;
  }

  // ------------------------------------------------------------- the adapter

  class SedMLDocument {
    const sedml: SedML
    var variableDict: Dict<Variable>
    var parameterDict: Dict<Parameter>
    var modelDict: Dict<Model>
    var simulationDict: Dict<Simulation>
    var taskDict: Dict<Task>
    var dataGenDict: Dict<DataGenerator>
    const outputList: seq<Output>

    /** Every table is a well-formed dict. */
    predicate Valid()
      reads this
    {
      variableDict.Valid() && parameterDict.Valid() && modelDict.Valid() &&
      simulationDict.Valid() && taskDict.Valid() && dataGenDict.Valid()
    }

    /** The state before the passes run: empty tables and the document's outputs. */
    predicate Unprocessed()
      reads this
    {
      variableDict == Empty() && parameterDict == Empty() && modelDict == Empty() &&
      simulationDict == Empty() && taskDict == Empty() && dataGenDict == Empty() &&
      outputList == sedml.outputs
    }

    /** The tables hold what the passes give for the document: the model and simulation
        tables only once the descent into tasks has succeeded. Every such table is a
        well-formed dict (`FilledValid`). */
    predicate Filled(descended: bool)
      reads this
    {
      && dataGenDict == DataGenTable(sedml) && variableDict == VariableTable(sedml)
      && parameterDict == ParameterTable(sedml) && taskDict == TaskTable(sedml)
      && (descended ==> modelDict == ModelTable(sedml) && simulationDict == SimulationTable(sedml))
    }

    lemma FilledValid()
      requires Filled(true)
      ensures Valid()
    {
    }

    constructor (doc: SedML)
      ensures sedml == doc && Unprocessed()
    {
      sedml := doc;
      variableDict := Empty();
      parameterDict := Empty();
      modelDict := Empty();
      simulationDict := Empty();
      taskDict := Empty();
      dataGenDict := Empty();
      outputList := doc.outputs;
    }

    /** `SedMLDocument(file_path)`: a document read with errors raises a `RuntimeError`
        listing them; otherwise the four passes fill the tables, and only the descent
        into repeated tasks can still fail. */
    static method Open(path: string, doc: SedML, fuel: nat) returns (r: Result<SedMLDocument>)
      ensures |doc.errors| > 0 ==> r == Err(RuntimeError(ErrorMessage(path, doc.errors)))
      ensures |doc.errors| == 0 ==> (r.Ok? <==> NeededRefs(TaskTable(doc).Values(), doc.tasks, fuel).Ok?)
      ensures r.Err? && |doc.errors| == 0 ==> r.error == RecursionError
      ensures r.Ok? ==> fresh(r.value) && r.value.sedml == doc && r.value.Filled(true)
    {
      if |doc.errors| > 0 {
        var message := ErrorReport(path, doc.errors);
        return Err(RuntimeError(message));
      }
      var d := new SedMLDocument(doc);
      var outcome := d.ProcessDocument(fuel);
      if outcome.Err? {
        return Err(outcome.error);
      }
      return Ok(d);
    }

    /** The message `__init__` builds for a document read with errors: the header, then
        one entry per error. */
    static method ErrorReport(path: string, errors: seq<string>) returns (message: string)
      ensures message == ErrorMessage(path, errors)
    {
      var head := Header(path, |errors|);
      message := head;
      var i := 0;
      while i < |errors|
        invariant 0 <= i <= |errors|
        invariant message == head + Entries(errors[..i])
      {
        EntriesNext(head, errors, i);
        message := message + Entry(i, errors[i]);
        i := i + 1;
      }
      assert errors[..i] == errors;
    }

    /** `_process_document`: the four passes in order. */
    method ProcessDocument(fuel: nat) returns (r: Result<Refs>)
      requires Unprocessed()
      modifies this
      ensures r == NeededRefs(TaskTable(sedml).Values(), sedml.tasks, fuel)
      ensures Filled(r.Ok?)
    {
      ProcessTables();
      r := ProcessTasks(fuel);
    }

    /** The first three passes of `_process_document`, which fill the tables the
        descent into tasks starts from. */
    method ProcessTables()
      requires Unprocessed()
      modifies this`dataGenDict, this`variableDict, this`parameterDict, this`taskDict
      ensures dataGenDict == DataGenTable(sedml) && variableDict == VariableTable(sedml)
      ensures parameterDict == ParameterTable(sedml) && taskDict == TaskTable(sedml)
    {
      ProcessOutputs();
      ProcessDataGens();
      ProcessVariablesAndParams();
    }

    /** `_process_outputs`: gathers the data generator ids the outputs refer to, then
        keeps the generators with those ids. */
    method ProcessOutputs()
      requires dataGenDict.Valid()
      modifies this`dataGenDict
      ensures dataGenDict.Valid()
      ensures dataGenDict == PutAll(old(dataGenDict), KeyedIf(sedml.dataGenerators, DataGenId, NeededIds(outputList)))
      ensures old(dataGenDict) == Empty() && outputList == sedml.outputs ==> dataGenDict == DataGenTable(sedml)
    {
      var needed := NeededDataGenIds(outputList);
      dataGenDict := PutKept(dataGenDict, sedml.dataGenerators, DataGenId, needed);
    }

    /** `_process_data_gens`: every variable and every parameter of the kept generators,
        by id; a later one with the same id replaces an earlier one. */
    method ProcessDataGens()
      requires dataGenDict.Valid() && variableDict.Valid() && parameterDict.Valid()
      modifies this`variableDict, this`parameterDict
      ensures variableDict.Valid() && parameterDict.Valid()
      ensures variableDict == PutAll(old(variableDict), VariablePairs(dataGenDict.Values()))
      ensures parameterDict == PutAll(old(parameterDict), ParameterPairs(dataGenDict.Values()))
      ensures old(variableDict) == Empty() && old(parameterDict) == Empty() && dataGenDict == DataGenTable(sedml) ==>
        variableDict == VariableTable(sedml) && parameterDict == ParameterTable(sedml)
    {
      var gens := dataGenDict.Values();
      var i := 0;
      while i < |gens|
        invariant 0 <= i <= |gens|
        invariant variableDict.Valid() && parameterDict.Valid()
        invariant variableDict == PutAll(old(variableDict), VariablePairs(gens[..i]))
        invariant parameterDict == PutAll(old(parameterDict), ParameterPairs(gens[..i]))
      {
        GenPairsNext(gens, i);
        PutAllConcat(old(variableDict), VariablePairs(gens[..i]), Keyed(gens[i].variables, VariableId));
        PutAllConcat(old(parameterDict), ParameterPairs(gens[..i]), Keyed(gens[i].parameters, ParameterId));
        variableDict := PutEach(variableDict, gens[i].variables, VariableId);
        parameterDict := PutEach(parameterDict, gens[i].parameters, ParameterId);
        i := i + 1;
      }
      assert gens[..i] == gens;
    }

    /** `_process_variables_and_params`: the task references of the variables (read
        twice, the second time where the parameters were meant), then the tasks with
        those ids. */
    method ProcessVariablesAndParams()
      requires variableDict.Valid() && taskDict.Valid()
      modifies this`taskDict
      ensures taskDict.Valid()
      ensures taskDict == PutAll(old(taskDict), KeyedIf(sedml.tasks, TaskId, Image(variableDict.Values(), VariableTaskRef)))
      ensures old(taskDict) == Empty() && variableDict == VariableTable(sedml) ==> taskDict == TaskTable(sedml)
    {
      var vars := variableDict.Values();
      var refs := AddTaskRefs({}, vars);
      var needed := AddTaskRefs(refs, vars);
      assert needed == Image(vars, VariableTaskRef);
      taskDict := PutKept(taskDict, sedml.tasks, TaskId, needed);
    }

    /** `_process_tasks`: gathers the references the kept tasks need (and drops them),
        then takes every model and every simulation of the document by id. */
    method ProcessTasks(fuel: nat) returns (r: Result<Refs>)
      requires taskDict.Valid() && modelDict.Valid() && simulationDict.Valid()
      modifies this`modelDict, this`simulationDict
      ensures modelDict.Valid() && simulationDict.Valid()
      ensures r == NeededRefs(taskDict.Values(), sedml.tasks, fuel)
      ensures r.Ok? ==> modelDict == PutAll(old(modelDict), Keyed(sedml.models, ModelId))
      ensures r.Ok? ==> simulationDict == PutAll(old(simulationDict), Keyed(sedml.simulations, SimulationId))
      ensures r.Ok? && old(modelDict) == Empty() && old(simulationDict) == Empty() ==>
        modelDict == ModelTable(sedml) && simulationDict == SimulationTable(sedml)
    {
      var tasks := taskDict.Values();
      var neededModels: set<string> := {};
      var neededSims: set<string> := {};
      var i := 0;
      while i < |tasks|
        invariant 0 <= i <= |tasks|
        invariant modelDict == old(modelDict) && simulationDict == old(simulationDict)
        invariant NeededRefs(tasks[..i], sedml.tasks, fuel) == Ok(Refs(neededModels, neededSims))
      {
        var task := tasks[i];
        NeededRefsNext(tasks, sedml.tasks, fuel, i, neededModels, neededSims);
        if task.PlainTask? {
          neededModels := neededModels + {task.modelRef};
          neededSims := neededSims + {task.simRef};
        }
        if task.RepeatedTask? {
          var found := DelveIntoRepeatedTask(task.subtasks, fuel);
          if found.None? {
            NeededRefsFailureSticks(tasks, sedml.tasks, fuel, i + 1);
            return Err(RecursionError);
          }
          neededModels, neededSims := found.value.models, found.value.sims;
        }
        i := i + 1;
      }
      assert tasks[..i] == tasks;
      r := Ok(Refs(neededModels, neededSims));
      modelDict := PutEach(modelDict, sedml.models, ModelId);
      simulationDict := PutEach(simulationDict, sedml.simulations, SimulationId);
    }

    /** `__delve_into_repeated_task`: looks each subtask up by id, descends into repeated
        targets and adds the references of plain ones. */
    method DelveIntoRepeatedTask(subtasks: seq<string>, fuel: nat) returns (r: Option<Refs>)
      ensures r == Reach(sedml.tasks, subtasks, fuel)
      decreases fuel
    {
      if fuel == 0 {
        return None;
      }
      var modelSet: set<string> := {};
      var simSet: set<string> := {};
      var i := 0;
      while i < |subtasks|
        invariant 0 <= i <= |subtasks|
        invariant Reach(sedml.tasks, subtasks[..i], fuel) == Some(Refs(modelSet, simSet))
      {
        assert subtasks[..i + 1][..i] == subtasks[..i];
        var target := GetTask(sedml.tasks, subtasks[i]);
        if target.Some? && target.value.RepeatedTask? {
          var found := DelveIntoRepeatedTask(target.value.subtasks, fuel - 1);
          if found.None? {
            ReachFailureSticks(sedml.tasks, subtasks, fuel, i + 1);
            return None;
          }
          modelSet := modelSet + found.value.models;
          simSet := simSet + found.value.sims;
        } else if target.Some? && target.value.PlainTask? {
          modelSet := modelSet + {target.value.modelRef};
          simSet := simSet + {target.value.simRef};
        }
        i := i + 1;
      }
      assert subtasks[..i] == subtasks;
      return Some(Refs(modelSet, simSet));
    }
  }
}
