/** What pydantic does when a model is built from keyword arguments: every declared
    field, in declaration order, must be supplied (unless it defaults to `None`) and is
    converted to its annotated type; extra keywords are ignored. */
module Pydantic {
  import opened Outcomes
  import opened PyText
  import opened PyNumbers
  import opened PyValues

  /** The field annotations used by the modelled records. */
  datatype FieldKind =
    | StrField                   // str
    | IntField                   // int
    | FloatOrStrField            // Union[float, str]
    | StrOrIntField              // Union[str, int]
    | StrListField               // List[str]
    | ScalarDictField            // Dict[str, Union[bool, str, float, int]]
    | MetaDataField              // Dict[str, Union[str, List[Union[str, float, int, bool]]]]
    | ListField(item: FieldKind) // List[...]
    | ModelField(fields: seq<Field>)  // a nested model given as a dict
    | AnyField                   // an annotation whose model is not part of this model

  /** `Required`: no default. `Nullable`: `Optional[...]` without a default, so it must be
      supplied but may be `None`. `DefaultNone`: `Optional[...] = None`. */
  datatype Presence = Required | Nullable | DefaultNone

  datatype Field = Field(name: string, kind: FieldKind, presence: Presence)

  /** A list of strings. */
  predicate IsStrList(v: PyValue) {
    v.PyList? && forall i :: 0 <= i < |v.items| ==> v.items[i].PyStr?
  }

  /** A list of bools, strings, floats and ints. */
  predicate IsScalarList(v: PyValue) {
    v.PyList? && forall i :: 0 <= i < |v.items| ==> v.items[i].IsScalar()
  }

  /** A dict whose values are scalars. */
  predicate IsScalarDict(v: PyValue) {
    v.PyDict? && forall i :: 0 <= i < |v.entries| ==> v.entries[i].1.IsScalar()
  }

  /** A dict whose values are strings or lists of scalars. */
  predicate IsMetaData(v: PyValue) {
    v.PyDict? && forall i :: 0 <= i < |v.entries| ==>
      v.entries[i].1.PyStr? || IsScalarList(v.entries[i].1)
  }

  lemma FieldsBelow(k: FieldKind)
    requires k.ModelField?
    ensures forall f :: f in k.fields ==> f.kind < k
  {
    forall f | f in k.fields ensures f.kind < k {
      assert f < k;
    }
  }

  /** Converting one supplied value to a field's annotated type. */
  function Coerce(k: FieldKind, name: string, v: PyValue): (r: Result<PyValue>)
    ensures r.Err? ==> r.error.MissingField? || r.error.WrongFieldType?
    decreases k, 2
  {
    match k
    case StrField => var t :- AsStr(name, v); Ok(PyStr(t))
    case IntField => var n :- AsInt(name, v); Ok(PyInt(n))
    case FloatOrStrField => CoerceFloatOrStr(name, v)
    case StrOrIntField => CoerceStrOrInt(name, v)
    case StrListField => if IsStrList(v) then Ok(v) else Err(WrongFieldType(name))
    case ScalarDictField => if IsScalarDict(v) then Ok(v) else Err(WrongFieldType(name))
    case MetaDataField => if IsMetaData(v) then Ok(v) else Err(WrongFieldType(name))
    case ListField(item) =>
      if v.PyList? then
        var items :- CoerceItems(k, item, name, v.items);
        Ok(PyList(items))
      else Err(WrongFieldType(name))
    case ModelField(fields) =>
      if v.PyDict? then
        FieldsBelow(k);
        var values :- ValidateFields(k, fields, v.entries);
        Ok(PyDict(values))
      else Err(WrongFieldType(name))
    case AnyField => Ok(v)
  }

  /** The value supplied for a field that has no default. */
  function Given(kwargs: seq<(string, PyValue)>, name: string): (r: Result<PyValue>)
    ensures r.Ok? <==> name in Keys(kwargs)
    ensures r.Ok? ==> Lookup(kwargs, name) == Some(r.value)
    ensures r.Err? ==> r.error == MissingField(name)
  {
    match Lookup(kwargs, name)
    case None => Err(MissingField(name))
    case Some(v) => Ok(v)
  }

  /** A keyword passed several times is given with the value passed last, and one
      never passed is reported missing by name. */
  lemma GivenLastPassed(kwargs: seq<(string, PyValue)>, i: nat)
    requires i < |kwargs| && forall j :: i < j < |kwargs| ==> kwargs[j].0 != kwargs[i].0
    ensures Given(kwargs, kwargs[i].0) == Ok(kwargs[i].1)
  {
    LookupLastEntry(kwargs, i);
  }

  lemma GivenNeverPassed(kwargs: seq<(string, PyValue)>, name: string)
    requires forall j :: 0 <= j < |kwargs| ==> kwargs[j].0 != name
    ensures Given(kwargs, name) == Err(MissingField(name))
  {
    assert name !in Keys(kwargs);
  }

  /** `str`: only a string is accepted. */
  function AsStr(name: string, v: PyValue): (r: Result<string>)
    ensures r.Ok? <==> v.PyStr?
    ensures r.Ok? ==> r.value == v.s
    ensures r.Err? ==> r.error == WrongFieldType(name)
  {
    if v.PyStr? then Ok(v.s) else Err(WrongFieldType(name))
  }

  /** `int` in pydantic's lax mode: an int; a bool, as 0 or 1; a float with a whole
      value; or a string `int()` accepts, converted. */
  function AsInt(name: string, v: PyValue): (r: Result<int>)
    ensures r.Ok? <==> v.IsIntInstance() || (v.PyFloat? && FloatAsInt(v.f).Some?)
                       || (v.PyStr? && ParseInt(v.s).Some?)
    ensures v.PyInt? ==> r == Ok(v.i)
    ensures v.PyBool? ==> r == Ok(if v.b then 1 else 0)
    ensures v.PyFloat? && r.Ok? ==> Some(r.value) == FloatAsInt(v.f)
    ensures v.PyStr? && r.Ok? ==> Some(r.value) == ParseInt(v.s)
    ensures r.Err? ==> r.error == WrongFieldType(name)
  {
    match v
    case PyInt(i) => Ok(i)
    case PyBool(b) => Ok(if b then 1 else 0)
    case PyFloat(f) =>
      (match FloatAsInt(f)
       case Some(n) => Ok(n)
       case None => Err(WrongFieldType(name)))
    case PyStr(s) =>
      (match ParseInt(s)
       case Some(n) => Ok(n)
       case None => Err(WrongFieldType(name)))
    case _ => Err(WrongFieldType(name))
  }

  /** `Union[str, int]` in pydantic's smart mode: a string or an int is kept as it is;
      otherwise the lax `int` conversion decides, so a bool or a whole-valued float
      becomes an int. */
  function CoerceStrOrInt(name: string, v: PyValue): (r: Result<PyValue>)
    ensures r.Ok? <==> v.PyStr? || AsInt(name, v).Ok?
    ensures v.PyStr? || v.PyInt? ==> r == Ok(v)
    ensures !v.PyStr? && r.Ok? ==> r == Ok(PyInt(AsInt(name, v).value))
    ensures r.Err? ==> r.error == WrongFieldType(name)
  {
    if v.PyStr? || v.PyInt? then Ok(v)
    else
      var n :- AsInt(name, v);
      Ok(PyInt(n))
  }

  /** The text of an int and the text of its float are both read back as that int. */
  lemma IntReadBack(name: string, n: int)
    ensures AsInt(name, PyStr(IntText(n))) == Ok(n)
    ensures AsInt(name, PyFloat(FloatOfInt(n))) == Ok(n)
    ensures n == 0 || n == 1 ==> AsInt(name, PyBool(n == 1)) == Ok(n)
  {
    IntTextRoundTrip(n);
    FloatAsIntRoundTrip(n);
  }

  /** `List[str]`: a list whose items are all strings. */
  function AsStrList(name: string, v: PyValue): (r: Result<seq<string>>)
    ensures r.Ok? <==> IsStrList(v)
    ensures r.Ok? ==> |r.value| == |v.items| && forall i :: 0 <= i < |v.items| ==> r.value[i] == v.items[i].s
    ensures r.Err? ==> r.error == WrongFieldType(name)
  {
    if IsStrList(v) then Ok(seq(|v.items|, i requires 0 <= i < |v.items| => v.items[i].s))
    else Err(WrongFieldType(name))
  }

  /** `Union[float, str]`: floats and strings are kept, an int or a bool becomes a float. */
  function CoerceFloatOrStr(name: string, v: PyValue): (r: Result<PyValue>)
    ensures r.Ok? <==> v.PyFloat? || v.PyStr? || v.IsIntInstance()
    ensures v.PyFloat? || v.PyStr? ==> r == Ok(v)
    ensures v.PyInt? ==> r == Ok(PyFloat(FloatOfInt(v.i)))
    ensures v.PyBool? ==> r == Ok(PyFloat(FloatOfInt(if v.b then 1 else 0)))
    ensures r.Ok? ==> r.value.PyFloat? || r.value.PyStr?
    ensures r.Err? ==> r.error == WrongFieldType(name)
  {
    match v
    case PyFloat(_) => Ok(v)
    case PyStr(_) => Ok(v)
    case PyInt(i) => Ok(PyFloat(FloatOfInt(i)))
    case PyBool(b) => Ok(PyFloat(FloatOfInt(if b then 1 else 0)))
    case _ => Err(WrongFieldType(name))
  }

  function CoerceItems(ghost parent: FieldKind, item: FieldKind, name: string, items: seq<PyValue>)
    : (r: Result<seq<PyValue>>)
    requires item < parent
    ensures r.Ok? ==> |r.value| == |items|
    ensures r.Err? ==> r.error.MissingField? || r.error.WrongFieldType?
    decreases parent, 1, |items|
  {
    if items == [] then Ok([])
    else
      var head :- Coerce(item, name, items[0]);
      var tail :- CoerceItems(parent, item, name, items[1..]);
      Ok([head] + tail)
  }

  /** The value pydantic keeps for one field of a model without validators, given the
      keyword arguments: a supplied value is converted to the field's type; a default is
      kept as it is. */
  function FieldValue(ghost parent: FieldKind, f: Field, kwargs: seq<(string, PyValue)>): (r: Result<PyValue>)
    requires f.kind < parent
    ensures r.Err? ==> r.error.MissingField? || r.error.WrongFieldType?
    ensures r.Ok? && f.presence != DefaultNone ==> f.name in Keys(kwargs)
    ensures f.presence != DefaultNone && f.name !in Keys(kwargs) ==> r == Err(MissingField(f.name))
    ensures f.presence == DefaultNone && f.name !in Keys(kwargs) ==> r == Ok(PyNone)
    decreases parent, 1, 0
  {
    match Lookup(kwargs, f.name)
    case None => if f.presence == DefaultNone then Ok(PyNone) else Err(MissingField(f.name))
    case Some(v) =>
      if v == PyNone && f.presence != Required then Ok(PyNone) else Coerce(f.kind, f.name, v)
  }

  /** Validating every field in declaration order; the first failure is reported. */
  function ValidateFields(ghost parent: FieldKind, fields: seq<Field>, kwargs: seq<(string, PyValue)>)
    : (r: Result<seq<(string, PyValue)>>)
    requires forall f :: f in fields ==> f.kind < parent
    ensures r.Err? ==> r.error.MissingField? || r.error.WrongFieldType?
    ensures r.Ok? ==> Keys(r.value) == FieldNames(fields)
    ensures r.Ok? ==> forall i :: 0 <= i < |fields| && fields[i].presence != DefaultNone ==> fields[i].name in Keys(kwargs)
    ensures r.Ok? ==> forall i :: 0 <= i < |fields| && fields[i].presence == DefaultNone && fields[i].name !in Keys(kwargs)
                        ==> r.value[i].1 == PyNone
    decreases parent, 1, |fields|
  {
    if fields == [] then Ok([])
    else
      assert fields[0] in fields;
      assert forall f :: f in fields[1..] ==> f in fields;
      var head :- FieldValue(parent, fields[0], kwargs);
      var tail :- ValidateFields(parent, fields[1..], kwargs);
      Ok([(fields[0].name, head)] + tail)
  }

  function FieldNames(fields: seq<Field>): (ns: seq<string>)
    ensures |ns| == |fields| && forall i :: 0 <= i < |fields| ==> ns[i] == fields[i].name
  {
    if fields == [] then [] else [fields[0].name] + FieldNames(fields[1..])
  }

  /** `Model(**kwargs)` for a model without validators of its own: the field values in
      declaration order, or the first field error. */
  function Build(fields: seq<Field>, kwargs: seq<(string, PyValue)>): (r: Result<seq<(string, PyValue)>>)
    ensures r.Err? ==> r.error.MissingField? || r.error.WrongFieldType?
    ensures r.Ok? ==> Keys(r.value) == FieldNames(fields)
    ensures r.Ok? ==> forall i :: 0 <= i < |fields| && fields[i].presence != DefaultNone ==> fields[i].name in Keys(kwargs)
    ensures r.Ok? ==> forall i :: 0 <= i < |fields| && fields[i].presence == DefaultNone && fields[i].name !in Keys(kwargs)
                        ==> r.value[i].1 == PyNone
  {
    var parent := ModelField(fields);
    FieldsBelow(parent);
    ValidateFields(parent, fields, kwargs)
  }

  /** A required field that is never supplied makes every build fail with an error of
      some field, and no build can succeed. */
  lemma MissingRequiredFails(fields: seq<Field>, kwargs: seq<(string, PyValue)>, i: nat)
    requires i < |fields| && fields[i].presence != DefaultNone && fields[i].name !in Keys(kwargs)
    ensures Build(fields, kwargs).Err?
  {
    assert fields[i] in fields;
  }

  /** When every field before a missing required one is fine, the error names it. */
  lemma {:induction false} FirstMissingReported(parent: FieldKind, fields: seq<Field>, kwargs: seq<(string, PyValue)>, i: nat)
    requires forall f :: f in fields ==> f.kind < parent
    requires i < |fields| && fields[i].presence != DefaultNone && fields[i].name !in Keys(kwargs)
    requires forall j :: 0 <= j < i ==> FieldValue(parent, fields[j], kwargs).Ok?
    ensures ValidateFields(parent, fields, kwargs) == Err(MissingField(fields[i].name))
    decreases i
  {
    assert fields[0] in fields;
    assert forall f :: f in fields[1..] ==> f in fields;
    if i > 0 {
      assert FieldValue(parent, fields[0], kwargs).Ok?;
      FirstMissingReported(parent, fields[1..], kwargs, i - 1);
    }
  }

  /** When the fields before a missing one are `str` fields given strings, building
      reports the missing one. */
  lemma MissingAfterText(fields: seq<Field>, kwargs: seq<(string, PyValue)>, i: nat)
    requires i < |fields| && fields[i].presence != DefaultNone && fields[i].name !in Keys(kwargs)
    requires forall j :: 0 <= j < i ==> fields[j].kind == StrField && SuppliesText(kwargs, fields[j].name)
    ensures Build(fields, kwargs) == Err(MissingField(fields[i].name))
  {
    var parent := ModelField(fields);
    FieldsBelow(parent);
    forall j | 0 <= j < i ensures FieldValue(parent, fields[j], kwargs).Ok? {
      assert fields[j] in fields;
      TextFieldValue(parent, fields[j], kwargs);
    }
    FirstMissingReported(parent, fields, kwargs, i);
  }

  /** Three leading `str` fields given text and a fourth field missing: the fourth is
      reported. */
  lemma FourthMissing(fields: seq<Field>, kwargs: seq<(string, PyValue)>)
    requires |fields| > 3 && fields[3].presence != DefaultNone && fields[3].name !in Keys(kwargs)
    requires fields[0].kind == StrField && SuppliesText(kwargs, fields[0].name)
    requires fields[1].kind == StrField && SuppliesText(kwargs, fields[1].name)
    requires fields[2].kind == StrField && SuppliesText(kwargs, fields[2].name)
    ensures Build(fields, kwargs) == Err(MissingField(fields[3].name))
  {
    forall j | 0 <= j < 3 ensures fields[j].kind == StrField && SuppliesText(kwargs, fields[j].name) {
      if j == 0 {} else if j == 1 {} else {}
    }
    MissingAfterText(fields, kwargs, 3);
  }

  /** A string is supplied for `name`. */
  predicate SuppliesText(kwargs: seq<(string, PyValue)>, name: string) {
    Lookup(kwargs, name).Some? && Lookup(kwargs, name).value.PyStr?
  }

  /** A list of strings is supplied for `name`. */
  predicate SuppliesTextList(kwargs: seq<(string, PyValue)>, name: string) {
    Lookup(kwargs, name).Some? && IsStrList(Lookup(kwargs, name).value)
  }

  /** A `str` field is given a string, a `List[str]` field a list of strings, or a
      metadata field a dict of the shape it declares. */
  predicate PlainlySupplied(kwargs: seq<(string, PyValue)>, f: Field) {
    || (f.kind == StrField && SuppliesText(kwargs, f.name))
    || (f.kind == StrListField && SuppliesTextList(kwargs, f.name))
    || (f.kind == MetaDataField && Lookup(kwargs, f.name).Some? && IsMetaData(Lookup(kwargs, f.name).value))
  }

  /** `v` is a value of the kind a `str`, `List[str]` or metadata field declares. */
  predicate FitsKind(kind: FieldKind, v: PyValue) {
    || (kind == StrField && v.PyStr?)
    || (kind == StrListField && IsStrList(v))
    || (kind == MetaDataField && IsMetaData(v))
  }

  /** Keyword arguments given in field order, each key once and each value of its
      field's kind, supply every field plainly. */
  lemma AlignedSupplied(fields: seq<Field>, kwargs: seq<(string, PyValue)>)
    requires |fields| == |kwargs|
    requires forall i :: 0 <= i < |kwargs| ==> kwargs[i].0 == fields[i].name && FitsKind(fields[i].kind, kwargs[i].1)
    requires forall i, j :: 0 <= i < j < |kwargs| ==> kwargs[i].0 != kwargs[j].0
    ensures forall i :: 0 <= i < |fields| ==> PlainlySupplied(kwargs, fields[i])
  {
    forall i | 0 <= i < |fields| ensures PlainlySupplied(kwargs, fields[i]) {
      LookupLastEntry(kwargs, i);
    }
  }

  /** A model whose fields are all strings, lists of strings or metadata, and which has
      no validators, accepts whatever such values it is given and keeps them as given. */
  lemma TextFieldsAccepted(fields: seq<Field>, kwargs: seq<(string, PyValue)>)
    requires forall i :: 0 <= i < |fields| ==> PlainlySupplied(kwargs, fields[i])
    ensures Build(fields, kwargs).Ok?
    ensures forall i :: 0 <= i < |fields| ==>
      Build(fields, kwargs).value[i].0 == fields[i].name &&
      Lookup(kwargs, fields[i].name) == Some(Build(fields, kwargs).value[i].1)
  {
    FieldsBelow(ModelField(fields));
    TextFieldsValid(ModelField(fields), fields, kwargs);
  }

  lemma {:induction false} TextFieldsValid(parent: FieldKind, fields: seq<Field>, kwargs: seq<(string, PyValue)>)
    requires forall f :: f in fields ==> f.kind < parent
    requires forall i :: 0 <= i < |fields| ==> PlainlySupplied(kwargs, fields[i])
    ensures ValidateFields(parent, fields, kwargs).Ok?
    ensures forall i :: 0 <= i < |fields| ==>
      ValidateFields(parent, fields, kwargs).value[i].0 == fields[i].name &&
      Lookup(kwargs, fields[i].name) == Some(ValidateFields(parent, fields, kwargs).value[i].1)
    decreases |fields|
  {
    if fields != [] {
      assert fields[0] in fields;
      assert forall f :: f in fields[1..] ==> f in fields;
      var rest := fields[1..];
      assert forall i :: 0 <= i < |rest| ==> rest[i] == fields[i + 1];
      TextFieldsValid(parent, rest, kwargs);
      TextFieldValue(parent, fields[0], kwargs);
      ValidateFieldsCons(parent, fields, kwargs);
    }
  }

  /** Validation of a non-empty field list whose head and tail both validate: the head's
      entry followed by the tail's, each tail entry keeping its field's name and value. */
  lemma ValidateFieldsCons(parent: FieldKind, fields: seq<Field>, kwargs: seq<(string, PyValue)>)
    requires forall f :: f in fields ==> f.kind < parent
    requires fields != [] && FieldValue(parent, fields[0], kwargs).Ok?
    requires Lookup(kwargs, fields[0].name) == Some(FieldValue(parent, fields[0], kwargs).value)
    requires forall f :: f in fields[1..] ==> f in fields
    requires ValidateFields(parent, fields[1..], kwargs).Ok?
    requires forall i :: 0 <= i < |fields| - 1 ==>
      ValidateFields(parent, fields[1..], kwargs).value[i].0 == fields[i + 1].name &&
      Lookup(kwargs, fields[i + 1].name) == Some(ValidateFields(parent, fields[1..], kwargs).value[i].1)
    ensures ValidateFields(parent, fields, kwargs).Ok?
    ensures forall i :: 0 <= i < |fields| ==>
      ValidateFields(parent, fields, kwargs).value[i].0 == fields[i].name &&
      Lookup(kwargs, fields[i].name) == Some(ValidateFields(parent, fields, kwargs).value[i].1)
  {
    var v := FieldValue(parent, fields[0], kwargs).value;
    var tail := ValidateFields(parent, fields[1..], kwargs).value;
    var r := ValidateFields(parent, fields, kwargs);
    assert r == Ok([(fields[0].name, v)] + tail);
    forall i | 0 <= i < |fields|
      ensures r.value[i].0 == fields[i].name && Lookup(kwargs, fields[i].name) == Some(r.value[i].1)
    {
      if i > 0 {
        assert r.value[i] == tail[i - 1];
      }
    }
  }

  lemma TextFieldValue(parent: FieldKind, f: Field, kwargs: seq<(string, PyValue)>)
    requires f.kind < parent && PlainlySupplied(kwargs, f)
    ensures FieldValue(parent, f, kwargs).Ok? && Lookup(kwargs, f.name) == Some(FieldValue(parent, f, kwargs).value)
  {
  }

  /** A required `str` field of a model: the value supplied for it, which must be a
      string. */
  function Text(kwargs: seq<(string, PyValue)>, name: string): (r: Result<string>)
    ensures r.Ok? <==> SuppliesText(kwargs, name)
    ensures r.Ok? ==> Lookup(kwargs, name) == Some(PyStr(r.value))
    ensures r.Err? ==> r.error == MissingField(name) || r.error == WrongFieldType(name)
  {
    var v :- Given(kwargs, name);
    AsStr(name, v)
  }

  /** A required `str` field with a validator of its own: the validator runs only on a
      string that was supplied, and its outcome is the field's. */
  function CheckedText(kwargs: seq<(string, PyValue)>, name: string, check: string -> Result<string>)
    : (r: Result<string>)
    ensures !SuppliesText(kwargs, name) ==> r.Err? && r.error.IsCollected()
    ensures SuppliesText(kwargs, name) ==> r == check(Lookup(kwargs, name).value.s)
  {
    var s :- Text(kwargs, name);
    check(s)
  }

  /** A list of strings as a value. */
  function TextList(xs: seq<string>): (v: PyValue)
    ensures v.PyList? && |v.items| == |xs|
    ensures forall i :: 0 <= i < |xs| ==> v.items[i] == PyStr(xs[i])
  {
    PyList(seq(|xs|, i requires 0 <= i < |xs| => PyStr(xs[i])))
  }

  /** A list of strings given as a value is read back as the same strings. */
  lemma TextListRead(name: string, xs: seq<string>)
    ensures AsStrList(name, TextList(xs)) == Ok(xs)
  {
    var v := TextList(xs);
    assert IsStrList(v);
    var r := AsStrList(name, v).value;
    assert |r| == |xs|;
    assert forall i :: 0 <= i < |xs| ==> r[i] == xs[i];
    assert r == xs;
  }
}
