/** The `Simulation` and `LoopedSimulation` records of the newer snapshot
    (src/sed_tooling/sed_model/simulation.py). Like the other records of that snapshot,
    their validators sit under `@classmethod` and are never registered; each validator is
    modelled as the function it is, and `Validate` states what running them in field order
    would give. */
module Simulation {
  import opened Outcomes
  import opened PyText
  import opened PyNumbers
  import opened PyValues
  import opened Patterns
  import opened FieldChecks
  import opened Dicts

  datatype Simulation = Simulation(
    name: string, identifier: string, typeName: string,
    model: string, algorithm: string, algorithmParameters: Option<Dict<PyValue>>)

  datatype LoopedSimulation = LoopedSimulation(
    name: string, identifier: string, typeName: string,
    sim: string, modelReset: PyValue, parameterScan: PyValue, overrides: Dict<string>)

  /** An outcome with its value dropped, for running a validator that returns something
      other than a string beside the others. */
  function Outcome<T>(r: Result<T>): (o: Result<string>)
    ensures o.Ok? <==> r.Ok?
    ensures o.Err? ==> o.error == r.error
  {
    match r
    case Ok(_) => Ok("")
    case Err(e) => Err(e)
  }

  // ------------------------------------------------------------------ Simulation

  /** Every non-empty part starts with a character of `[><A-Za-z0-9_-]`. */
  predicate PartsStartWell(parts: seq<string>) {
    forall i :: 0 <= i < |parts| && parts[i] != [] ==> IsSegmentChar(parts[i][0])
  }

  /** The loop of `legal_algorithm`: empty parts are skipped, the others must start
      with a segment character. */
  function AlgorithmParts(parts: seq<string>): (r: Result<()>)
    ensures r.Ok? <==> PartsStartWell(parts)
    ensures r.Err? ==> r.error == AssertionError("algorithm")
  {
    if parts == [] then Ok(())
    else if parts[0] == [] then AlgorithmParts(parts[1..])
    else
      var _ :- MatchSegment("algorithm", parts[0]);
      AlgorithmParts(parts[1..])
  }

  /** `legal_algorithm`: the value holds a colon, and each non-empty piece between the
      colons starts with a segment character. */
  function LegalAlgorithm(v: string): (r: Result<string>)
    ensures r.Ok? <==> Contains(v, ":") && PartsStartWell(Split(v, ":"))
    ensures r.Ok? ==> r.value == v
    ensures r.Err? ==> r.error == AssertionError("algorithm")
  {
    var parts := Split(v, ":");
    if |parts| < 2 then Err(AssertionError("algorithm"))
    else
      var _ :- AlgorithmParts(parts);
      Ok(v)
  }

  /** A KiSAO term passes. */
  lemma KisaoAlgorithmAccepted()
    ensures LegalAlgorithm("KISAO:0000019") == Ok("KISAO:0000019")
  {
    KisaoParts();
    PairAlgorithmAccepted("KISAO", "0000019");
    assert "KISAO" + ":" + "0000019" == "KISAO:0000019";
  }

  lemma KisaoParts()
    ensures forall i :: 0 <= i < |"KISAO"| ==> "KISAO"[i] != ':'
    ensures forall i :: 0 <= i < |"0000019"| ==> "0000019"[i] != ':'
    ensures IsSegmentChar("KISAO"[0]) && IsSegmentChar("0000019"[0])
  {
  }

  /** Two colon-free pieces, each empty or starting well, joined by one colon pass. */
  lemma PairAlgorithmAccepted(a: string, b: string)
    requires forall i :: 0 <= i < |a| ==> a[i] != ':'
    requires forall i :: 0 <= i < |b| ==> b[i] != ':'
    requires a != [] ==> IsSegmentChar(a[0])
    requires b != [] ==> IsSegmentChar(b[0])
    ensures LegalAlgorithm(a + ":" + b) == Ok(a + ":" + b)
  {
    var parts := Split(a + ":" + b, ":");
    SplitPair(a, b, ":");
    assert parts[0] == a && parts[1] == b;
    assert PartsStartWell(parts);
  }

  /** A lone colon passes: both of its parts are empty and skipped. */
  lemma LoneColonAccepted()
    ensures LegalAlgorithm(":") == Ok(":")
  {
    PairAlgorithmAccepted("", "");
    assert "" + ":" + "" == ":";
  }

  /** A name without a colon gives a single part. */
  lemma ColonlessAlgorithmRejected()
    ensures LegalAlgorithm("KISAO") == Err(AssertionError("algorithm"))
  {
    SplitWhole("KISAO", ":");
  }

  /** A part starting with a point is rejected. */
  lemma PointPartRejected()
    ensures LegalAlgorithm("KISAO:.5") == Err(AssertionError("algorithm"))
  {
    SplitPair("KISAO", ".5", ":");
    assert "KISAO" + ":" + ".5" == "KISAO:.5";
    assert ["KISAO", ".5"][1][0] == '.';
  }

  /** The keys with surrounding whitespace removed. */
  function StrippedKeys(d: Dict<PyValue>): (ks: seq<string>)
    ensures |ks| == |d.order|
    ensures forall i :: 0 <= i < |ks| ==> ks[i] == Strip(d.order[i])
  {
    seq(|d.order|, i requires 0 <= i < |d.order| => Strip(d.order[i]))
  }

  /** The dict's items in insertion order. */
  function Entries(d: Dict<PyValue>): (es: seq<(string, PyValue)>)
    requires d.Valid()
    ensures |es| == |d.order|
    ensures forall i :: 0 <= i < |es| ==> es[i] == (d.order[i], d.Values()[i])
  {
    var vs := d.Values();
    seq(|d.order|, i requires 0 <= i < |d.order| => (d.order[i], vs[i]))
  }

  /** Every value is a bool, str, float or int. */
  predicate AllScalar(vs: seq<PyValue>) {
    forall i :: 0 <= i < |vs| ==> vs[i].IsScalar()
  }

  /** The value loop of `legal_parameters`. */
  function ScalarValues(vs: seq<PyValue>): (r: Result<()>)
    ensures r.Ok? <==> AllScalar(vs)
    ensures r.Err? ==> r.error == AssertionError("algorithmParameters")
  {
    if vs == [] then Ok(())
    else if !vs[0].IsScalar() then Err(AssertionError("algorithmParameters"))
    else ScalarValues(vs[1..])
  }

  /** `legal_parameters`: no dict passes as None; otherwise no two keys may be equal
      once stripped and every value must be a scalar, and the dict is returned as the
      text `str()` gives for it. */
  function LegalParameters(v: Option<Dict<PyValue>>): (r: Result<Option<string>>)
    requires v.Some? ==> v.value.Valid()
    ensures v.None? ==> r == Ok(None)
    ensures v.Some? ==>
      (r.Ok? <==> Distinct(StrippedKeys(v.value)) && AllScalar(v.value.Values()))
    ensures v.Some? && r.Ok? ==> r.value == Some(Repr(PyDict(Entries(v.value))))
    ensures r.Err? ==> r.error == AssertionError("algorithmParameters")
  {
    match v
    case None => Ok(None)
    case Some(d) =>
      var keys := StrippedKeys(d);
      DistinctByCount(keys);
      if |keys| != |Elements(keys)| then Err(AssertionError("algorithmParameters"))
      else
        var _ :- ScalarValues(d.Values());
        Ok(Some(Repr(PyDict(Entries(d)))))
  }

  /** A dict whose keys carry no surrounding whitespace and whose values are scalars
      always passes: its keys are distinct to begin with. */
  lemma StrippedParametersPass(d: Dict<PyValue>)
    requires d.Valid() && NoSpaceKeys(d) && AllScalar(d.Values())
    ensures LegalParameters(Some(d)) == Ok(Some(Repr(PyDict(Entries(d)))))
  {
    var ks := StrippedKeys(d);
    forall i | 0 <= i < |ks| ensures ks[i] == d.order[i] {
      assert NoSpace(d.order[i]);
    }
    assert ks == d.order;
  }

  predicate NoSpaceKeys(d: Dict<PyValue>) {
    forall i :: 0 <= i < |d.order| ==> NoSpace(d.order[i])
  }

  /** Two keys that are equal once stripped make the parameters fail. */
  lemma StrippedClashRejected(d: Dict<PyValue>, i: nat, j: nat)
    requires d.Valid() && i < j < |d.order| && Strip(d.order[i]) == Strip(d.order[j])
    ensures LegalParameters(Some(d)) == Err(AssertionError("algorithmParameters"))
  {
    var ks := StrippedKeys(d);
    assert ks[i] == ks[j];
  }

  /** Two keys that differ only in leading whitespace clash. */
  lemma PaddedKeysClash()
    ensures LegalParameters(Some(Dict(["a", " a"], map["a" := PyInt(1), " a" := PyInt(2)])))
         == Err(AssertionError("algorithmParameters"))
  {
    var d := Dict(["a", " a"], map["a" := PyInt(1), " a" := PyInt(2)]);
    assert d.Valid() by {
      assert " a"[0] == ' ';
      assert Elements(d.order) == {"a", " a"};
    }
    assert Strip(" a") == "a" && Strip("a") == "a" by {
      PaddedKeyStripped();
    }
    StrippedClashRejected(d, 0, 1);
  }

  lemma PaddedKeyStripped()
    ensures Strip(" a") == "a" && Strip("a") == "a"
  {
    assert NoSpace("a");
    StripLeadingSpace(' ', "a");
    assert [' '] + "a" == " a";
  }

  /** Every validator of a simulation in field order (`legal_id` comes from `Action`).
      The type validator hands the recursive pattern to `re`, whose `re.error` escapes:
      no simulation passes. */
  function Validate(x: Simulation): (r: Result<Simulation>)
    requires x.algorithmParameters.Some? ==> x.algorithmParameters.value.Valid()
    ensures r == Err(PatternError("sim::" + TYPE_PATTERN))
  {
    var id := FullmatchIdentifier(Stdlib, "identifier", x.identifier);
    var ty := StdlibType(true, "sim::", "type", x.typeName);
    var rest := [
      MatchReference("model", x.model),
      LegalAlgorithm(x.algorithm),
      Outcome(LegalParameters(x.algorithmParameters))];
    TypeCheckEscapes(id, ty, rest);
    match Settle([id, ty] + rest)
    case Err(e) => Err(e)
    case Ok(_) => Ok(x)
  }

  // ----------------------------------------------------------- LoopedSimulation

  /** `legal_boolean_check`: a string becomes the text of its truth value (only the
      empty string is false), anything else the text `str()` gives for it. */
  function BooleanCheck(v: PyValue): (r: string)
    ensures v.PyStr? ==> (r == "True" <==> v.s != []) && (r == "True" || r == "False")
    ensures v.PyBool? ==> (r == "True" <==> v.b) && (r == "True" || r == "False")
    ensures v.PyInt? ==> r == IntText(v.i)
  {
    if v.PyStr? then BoolText(StrTruth(v.s)) else Str(v)
  }

  /** The check does not read a word: "False" counts as true. Checking its own output
      again always gives "True", so it is not idempotent on "False". */
  lemma BooleanCheckExamples()
    ensures BooleanCheck(PyStr("False")) == "True"
    ensures BooleanCheck(PyStr("")) == "False"
    ensures BooleanCheck(PyBool(false)) == "False"
    ensures BooleanCheck(PyStr(BooleanCheck(PyBool(false)))) == "True"
  {
  }

  /** Whatever the value, checking the text the check returns gives "True". */
  lemma RecheckIsTrue(v: PyValue)
    requires v.PyStr? || v.PyBool?
    ensures BooleanCheck(PyStr(BooleanCheck(v))) == "True"
  {
    var t := BooleanCheck(v);
    assert t == "True" || t == "False";
    assert t != [];
  }

  /** The head of `sed::range\(.+\)`. */
  const RANGE_HEAD: string := "sed::range("

  /** `re.fullmatch("sed::range\(.+\)", v)`: the head, at least one character other than
      a newline, and a closing parenthesis. */
  predicate IsRangeCall(v: string) {
    && |v| >= |RANGE_HEAD| + 2
    && v[..|RANGE_HEAD|] == RANGE_HEAD
    && v[|v| - 1] == ')'
    && forall i :: |RANGE_HEAD| <= i < |v| - 1 ==> v[i] != '\n'
  }

  /** `value[11:-1].split(",")`: the bounds written inside the parentheses. */
  function RangeParts(v: string): seq<string>
    requires IsRangeCall(v)
  {
    Split(v[|RANGE_HEAD|..|v| - 1], ",")
  }

  /** `float(part.strip())` succeeds. */
  predicate IsBound(part: string) {
    ParsesAsFloat(Strip(part))
  }

  /** Every part is read by `float()` once stripped. */
  predicate AllFloats(parts: seq<string>) {
    parts == [] || (IsBound(parts[0]) && AllFloats(parts[1..]))
  }

  /** `[float(part.strip()) for part in parts]`: a part `float()` cannot read raises a
      ValueError naming it. */
  function FloatParts(parts: seq<string>): (r: Result<()>)
    ensures r.Ok? <==> AllFloats(parts)
    ensures r.Err? ==> exists i :: FirstFailing(IsBound, parts, i) && r.error == ValueError(Strip(parts[i]))
  {
    if parts == [] then Ok(())
    else if !IsBound(parts[0]) then
      assert FirstFailing(IsBound, parts, 0);
      Err(ValueError(Strip(parts[0])))
    else
      var r := FloatParts(parts[1..]);
      if r.Err? then
        var i :| FirstFailing(IsBound, parts[1..], i) && r.error == ValueError(Strip(parts[1..][i]));
        assert FirstFailing(IsBound, parts, i + 1) && parts[i + 1] == parts[1..][i];
        r
      else r
  }

  /** `xs[i]` is the first element `p` refuses: `p` holds of every element before it. */
  predicate FirstFailing<T>(p: T -> bool, xs: seq<T>, i: int)
    decreases |xs|
  {
    0 <= i < |xs| &&
    if i == 0 then !p(xs[0]) else p(xs[0]) && FirstFailing(p, xs[1..], i - 1)
  }

  /** Read by index: the element at `i` is refused and every element before it holds. */
  lemma {:induction false} FirstFailingIndexed<T>(p: T -> bool, xs: seq<T>, i: int)
    requires FirstFailing(p, xs, i)
    ensures 0 <= i < |xs| && !p(xs[i])
    ensures forall j :: 0 <= j < i ==> p(xs[j])
    decreases |xs|
  {
    if i > 0 {
      FirstFailingIndexed(p, xs[1..], i - 1);
      assert forall j :: 1 <= j < i ==> xs[j] == xs[1..][j - 1];
    }
  }

  /** The range branch: every bound is a number, and there are at most three. */
  function RangeCheck(v: string): (r: Result<()>)
    requires IsRangeCall(v)
    ensures r.Ok? <==> AllFloats(RangeParts(v)) && |RangeParts(v)| <= 3
    ensures r.Err? && !AllFloats(RangeParts(v)) ==> r.error.ValueError?
    ensures AllFloats(RangeParts(v)) && |RangeParts(v)| > 3 ==> r == Err(AssertionError("overrides"))
  {
    var parts := RangeParts(v);
    var _ :- FloatParts(parts);
    if 0 < |parts| < 4 then Ok(()) else Err(AssertionError("overrides"))
  }

  /** `[A-Za-z0-9._-]` */
  predicate IsOverrideChar(c: char) { IsIdentChar(c) || c == '.' }

  /** `#?[A-Za-z0-9._-]+` */
  predicate IsListItem(x: string) {
    Run(IsOverrideChar, x) || (|x| > 0 && x[0] == '#' && Run(IsOverrideChar, x[1..]))
  }

  /** An item with blanks on both sides. */
  predicate Padded(p: string) {
    exists i, j :: 0 <= i < j <= |p| && Spaces(p[..i]) && IsListItem(p[i..j]) && Spaces(p[j..])
  }

  /** An item with blanks before it. */
  predicate LeftPadded(p: string) {
    exists i :: 0 <= i < |p| && Spaces(p[..i]) && IsListItem(p[i..])
  }

  /** `re.fullmatch("\[( *#?[A-Za-z0-9._-]+ *, *)*(#?[A-Za-z0-9._-]+)\]", v)`. Items hold
      no comma, so the pieces between commas are the repetitions: each but the last is
      an item padded with blanks, the last is an item with blanks before it, and a single
      item stands alone. */
  predicate IsListLiteral(v: string) {
    && |v| >= 2 && v[0] == '[' && v[|v| - 1] == ']'
    && var parts := Split(v[1..|v| - 1], ",");
    && (forall i :: 0 <= i < |parts| - 1 ==> Padded(parts[i]))
    && (if |parts| == 1 then IsListItem(parts[0]) else LeftPadded(parts[|parts| - 1]))
  }

  /** `([0-9]+[.])?[0-9]+`: digits, optionally with one inner point. */
  predicate IsUnsignedDecimal(p: string) {
    || (|p| > 0 && AllDigits(p))
    || exists k :: 0 < k < |p| - 1 && p[k] == '.' && AllDigits(p[..k]) && AllDigits(p[k + 1..])
  }

  /** A list element, stripped, is an unsigned decimal or a whole reference. */
  predicate ListElement(p: string) {
    IsUnsignedDecimal(Strip(p)) || IsReference(Strip(p))
  }

  /** The loop over the list's stripped parts. */
  function ListParts(parts: seq<string>): (r: Result<()>)
    ensures r.Ok? <==> forall i :: 0 <= i < |parts| ==> ListElement(parts[i])
    ensures r.Err? ==> r.error == AssertionError("overrides")
  {
    if parts == [] then Ok(())
    else if !ListElement(parts[0]) then Err(AssertionError("overrides"))
    else ListParts(parts[1..])
  }

  /** The elements written between the brackets. */
  function ListElements(v: string): seq<string>
    requires IsListLiteral(v)
  {
    Split(v[1..|v| - 1], ",")
  }

  /** The message of the ValueError for a value of neither form. */
  function UnknownValue(v: string): string {
    "Unknown value: `" + v + "` in value of Simulation's overrides."
  }

  /** One value of `legal_overrides`: a range call whose bounds are at most three
      numbers, or a list whose elements are numbers or references; anything else is
      an unknown value. */
  function Override(v: string): (r: Result<()>)
    ensures IsRangeCall(v) ==> (r.Ok? <==> AllFloats(RangeParts(v)) && |RangeParts(v)| <= 3)
    ensures !IsRangeCall(v) && IsListLiteral(v) ==>
      (r.Ok? <==> forall i :: 0 <= i < |ListElements(v)| ==> ListElement(ListElements(v)[i]))
    ensures !IsRangeCall(v) && IsListLiteral(v) && r.Err? ==> r.error == AssertionError("overrides")
    ensures !IsRangeCall(v) && !IsListLiteral(v) ==> r == Err(ValueError(UnknownValue(v)))
  {
    if IsRangeCall(v) then RangeCheck(v)
    else if IsListLiteral(v) then ListParts(ListElements(v))
    else Err(ValueError(UnknownValue(v)))
  }

  /** The value loop of `legal_overrides`: the first value that fails raises. */
  function OverrideValues(vs: seq<string>): (r: Result<()>)
    ensures r.Ok? <==> forall i :: 0 <= i < |vs| ==> Override(vs[i]).Ok?
    ensures r.Err? ==> exists i :: 0 <= i < |vs| && Override(vs[i]) == Err(r.error)
                                   && forall j :: 0 <= j < i ==> Override(vs[j]).Ok?
  {
    FirstFailure(Override, vs)
  }

  /** `legal_overrides`: every value passes, and the validator then returns None.
      Otherwise the first value, in the dict's insertion order, that fails raises. Its
      first assertion, that no key repeats, holds for every dict (`OverrideKeysDistinct`). */
  function LegalOverrides(d: Dict<string>): (r: Result<PyValue>)
    requires d.Valid()
    ensures r.Ok? <==> forall i :: 0 <= i < |d.order| ==> Override(d.items[d.order[i]]).Ok?
    ensures r.Ok? ==> r.value == PyNone
    ensures r.Err? ==> exists i :: 0 <= i < |d.order| && Override(d.items[d.order[i]]) == Err(r.error)
                                   && forall j :: 0 <= j < i ==> Override(d.items[d.order[j]]).Ok?
  {
    var vs := d.Values();
    match OverrideValues(vs)
    case Err(e) =>
      Err(e)
    case Ok(_) => Ok(PyNone)
  }

  /** `len(keys) == len(set(keys))` holds for the keys of any dict. */
  lemma OverrideKeysDistinct(d: Dict<string>)
    requires d.Valid()
    ensures |Elements(d.order)| == |d.order|
  {
    DistinctByCount(d.order);
  }

  /** A range with two numeric bounds passes. */
  lemma RangeAccepted()
    ensures Override("sed::range(0,1)") == Ok(())
  {
    var v := "sed::range(0,1)";
    assert v[..|RANGE_HEAD|] == RANGE_HEAD;
    assert IsRangeCall(v);
    assert v[|RANGE_HEAD|..|v| - 1] == "0" + "," + "1";
    SplitPair("0", "1", ",");
    BoundsRead();
  }

  lemma BoundsRead()
    ensures AllFloats(["0", "1"])
  {
    DigitsBound("0");
    DigitsBound("1");
    AllFloatsCons("1", []);
    assert ["1"] + [] == ["1"];
    AllFloatsCons("0", ["1"]);
    assert ["0"] + ["1"] == ["0", "1"];
  }

  /** A bound in front of bounds keeps them all bounds. */
  lemma AllFloatsCons(x: string, rest: seq<string>)
    requires IsBound(x) && AllFloats(rest)
    ensures AllFloats([x] + rest)
  {
    assert ([x] + rest)[1..] == rest;
  }

  /** A run of digits is a bound. */
  lemma DigitsBound(s: string)
    requires |s| > 0 && AllDigits(s)
    ensures IsBound(s)
  {
    DigitsText(s);
    DigitsNoSpace(s);
    assert Strip(s) == s;
  }

  lemma DigitsNoSpace(s: string)
    requires AllDigits(s)
    ensures NoSpace(s)
  {
    forall i | 0 <= i < |s| ensures !IsSpace(s[i]) { assert IsDigit(s[i]); }
  }

  /** A bound that is not a number raises a ValueError naming it. */
  lemma WordBoundRejected()
    ensures Override("sed::range(a)") == Err(ValueError("a"))
  {
    WordRangeShape();
    NotNumberStart("a");
    assert Strip("a") == "a";
    SingleBoundRejected("sed::range(a)", "a");
  }

  lemma WordRangeShape()
    ensures IsRangeCall("sed::range(a)") && RangeParts("sed::range(a)") == ["a"]
  {
    var w := "sed::range(a)";
    assert w[..|RANGE_HEAD|] == RANGE_HEAD;
    assert w[|RANGE_HEAD|..|w| - 1] == "a";
    SplitWhole("a", ",");
  }

  /** A range call with one bound `float()` cannot read raises a ValueError naming it. */
  lemma SingleBoundRejected(w: string, b: string)
    requires IsRangeCall(w) && RangeParts(w) == [b] && !ParsesAsFloat(Strip(b))
    ensures Override(w) == Err(ValueError(Strip(b)))
  {
    OneBoundRejected(b);
    RangeFailure(w);
  }

  lemma OneBoundRejected(b: string)
    requires !ParsesAsFloat(Strip(b))
    ensures FloatParts([b]) == Err(ValueError(Strip(b)))
  {
  }

  /** A bound `float()` cannot read fails the range call with the bounds' error. */
  lemma RangeFailure(w: string)
    requires IsRangeCall(w) && FloatParts(RangeParts(w)).Err?
    ensures Override(w) == Err(FloatParts(RangeParts(w)).error)
  {
  }

  /** Numbers in a list pass. */
  lemma ListAccepted()
    ensures Override("[3,0.5]") == Ok(())
  {
    ListLiteralSplit();
    ListShape();
    ListNumbers();
    PairListAccepted("[3,0.5]", "3", "0.5");
  }

  /** A bracketed list of two number elements passes. */
  lemma PairListAccepted(v: string, a: string, b: string)
    requires |v| >= 2 && v[0] == '[' && v[|v| - 1] == ']'
    requires Split(v[1..|v| - 1], ",") == [a, b]
    requires Padded(a) && LeftPadded(b) && ListElement(a) && ListElement(b)
    ensures Override(v) == Ok(())
  {
    PairListShape(v, a, b);
    ListOverrideAccepted(v, a, b);
    UnitOk(Override(v));
  }

  /** A list literal of two number elements passes. */
  lemma ListOverrideAccepted(v: string, a: string, b: string)
    requires !IsRangeCall(v) && IsListLiteral(v) && ListElements(v) == [a, b]
    requires ListElement(a) && ListElement(b)
    ensures Override(v).Ok?
  {
    var parts := ListElements(v);
    forall i | 0 <= i < |parts| ensures ListElement(parts[i]) {
      if i == 0 { assert parts[i] == a; } else { assert parts[i] == b; }
    }
  }

  /** Two pieces between brackets, the first padded and the second with blanks before
      it, make a list literal. */
  lemma PairListShape(v: string, a: string, b: string)
    requires |v| >= 2 && v[0] == '[' && v[|v| - 1] == ']'
    requires Split(v[1..|v| - 1], ",") == [a, b]
    requires Padded(a) && LeftPadded(b)
    ensures !IsRangeCall(v) && IsListLiteral(v) && ListElements(v) == [a, b]
  {
    assert !IsRangeCall(v) by {
      if |v| >= |RANGE_HEAD| + 2 {
        assert v[..|RANGE_HEAD|][0] == '[' != RANGE_HEAD[0];
      }
    }
    var parts := Split(v[1..|v| - 1], ",");
    forall i | 0 <= i < |parts| - 1 ensures Padded(parts[i]) {
      assert parts[i] == a;
    }
  }

  lemma ListLiteralSplit()
    ensures Split("[3,0.5]"[1..6], ",") == ["3", "0.5"]
  {
    assert "[3,0.5]"[1..6] == "3" + "," + "0.5";
    SplitPair("3", "0.5", ",");
  }

  lemma ListShape()
    ensures Padded("3") && LeftPadded("0.5")
  {
    assert "3"[..0] == [] && "3"[0..1] == "3" && "3"[1..] == [];
    assert "0.5"[..0] == [] && "0.5"[0..] == "0.5";
  }

  lemma ListNumbers()
    ensures ListElement("3") && ListElement("0.5")
  {
    assert AllDigits("3");
    DecimalElement("3");
    PointDecimal("0", "5");
    assert "0" + "." + "5" == "0.5";
    DecimalElement("0.5");
  }

  /** Digits, a point and digits make an unsigned decimal. */
  lemma PointDecimal(a: string, b: string)
    requires |a| > 0 && |b| > 0 && AllDigits(a) && AllDigits(b)
    ensures IsUnsignedDecimal(a + "." + b)
  {
    var p := a + "." + b;
    assert p[..|a|] == a && p[|a| + 1..] == b;
  }

  /** An unsigned decimal is a list element: it holds no whitespace to strip. */
  lemma DecimalElement(p: string)
    requires IsUnsignedDecimal(p)
    ensures ListElement(p)
  {
    assert NoSpace(p) by {
      if !AllDigits(p) {
        var k :| 0 < k < |p| - 1 && p[k] == '.' && AllDigits(p[..k]) && AllDigits(p[k + 1..]);
        forall i | 0 <= i < |p| ensures !IsSpace(p[i]) {
          if i < k { assert p[i] == p[..k][i]; }
          else if i > k { assert p[i] == p[k + 1..][i - k - 1]; }
        }
      }
    }
  }

  /** A negative number fits the list pattern, whose items may hold `-`, but not the
      element check. */
  lemma NegativeRejected()
    ensures Override("[-1]") == Err(AssertionError("overrides"))
  {
    NegativeIsListItem();
    NegativeNotElement();
  }

  lemma NegativeIsListItem()
    ensures !IsRangeCall("[-1]") && IsListLiteral("[-1]") && ListElements("[-1]") == ["-1"]
  {
    var v := "[-1]";
    assert v[0] != RANGE_HEAD[0];
    assert v[1..|v| - 1] == "-1";
    SplitWhole("-1", ",");
    assert IsOverrideChar('-') && IsOverrideChar('1');
  }

  lemma NegativeNotElement()
    ensures !ListElement("-1")
  {
    assert NoSpace("-1");
    SignedNotElement("-1");
  }

  /** A signed number, blank-free, is not a list element. */
  lemma SignedNotElement(p: string)
    requires |p| > 0 && IsSign(p[0]) && NoSpace(p)
    ensures !ListElement(p)
  {
    assert Strip(p) == p;
    assert !AllDigits(p) by { assert !IsDigit(p[0]); }
    forall k | 0 < k < |p| - 1
      ensures !(p[k] == '.' && AllDigits(p[..k]) && AllDigits(p[k + 1..]))
    {
      assert p[..k][0] == p[0];
      assert !IsDigit(p[..k][0]);
    }
  }

  /** A value of neither form is unknown. */
  lemma WordValueRejected()
    ensures Override("KISAO") == Err(ValueError(UnknownValue("KISAO")))
  {
    assert "KISAO"[0] != '[';
  }

  /** Every validator of a looped simulation in field order. As for `Simulation`, the
      type validator's pattern error escapes: no looped simulation passes. */
  function ValidateLooped(x: LoopedSimulation): (r: Result<LoopedSimulation>)
    requires x.overrides.Valid()
    ensures r == Err(PatternError(TYPE_PATTERN))
  {
    var id := FullmatchIdentifier(Stdlib, "identifier", x.identifier);
    var ty := StdlibType(true, "", "type", x.typeName);
    var rest := [
      MatchReference("sim", x.sim),
      Ok(BooleanCheck(x.modelReset)),
      Ok(BooleanCheck(x.parameterScan)),
      Outcome(LegalOverrides(x.overrides))];
    assert "" + TYPE_PATTERN == TYPE_PATTERN;
    TypeCheckEscapes(id, ty, rest);
    match Settle([id, ty] + rest)
    case Err(e) => Err(e)
    case Ok(_) => Ok(x)
  }
}
