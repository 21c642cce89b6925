/** The shape every pattern validator of the Sed records shares: compile a pattern,
    assert that it matches the field value, and give the value back unchanged. */
module FieldChecks {
  import opened Outcomes
  import opened PyText
  import opened Patterns

  /** The regular-expression library a validator calls: the standard `re`, which has no
      `(?R)` construct, or the third-party `regex`, which has. */
  datatype Engine = Stdlib | RegexModule

  const IDENTIFIER_PATTERN: string := "[A-Za-z0-9_-]+"
  const IDENTIFIER_REFERENCE: string := "#[A-Za-z0-9_-]+"
  const SEGMENT_PATTERN: string := "[><A-Za-z0-9_-]+"
  const SEGMENT_REFERENCE: string := "#[><A-Za-z0-9_-]+"
  const SOURCE_PATTERN: string := "[A-Za-z0-9_\\/-]+"

  /** A string the bare type grammar accepts. */
  predicate IsType(s: string) { Matches(Generic, s) }

  function Compile(e: Engine, pattern: string): (r: Result<string>)
    ensures r.Ok? ==> r.value == pattern
    ensures r.Err? <==> e == Stdlib && Contains(pattern, RECURSION)
  {
    if e == Stdlib then StdlibCompile(pattern) else Ok(pattern)
  }

  /** `assert <engine>.fullmatch(pattern, v) is not None; return v`, where `lang` is the
      language `pattern` denotes. */
  function FullCheck(e: Engine, pattern: string, lang: string -> bool, field: string, v: string)
    : (r: Result<string>)
    ensures r.Ok? <==> Compile(e, pattern).Ok? && lang(v)
    ensures r.Ok? ==> r.value == v
    ensures Compile(e, pattern).Err? ==> r == Err(PatternError(pattern))
    ensures Compile(e, pattern).Ok? && !lang(v) ==> r == Err(AssertionError(field))
  {
    var _ :- Compile(e, pattern);
    if lang(v) then Ok(v) else Err(AssertionError(field))
  }

  /** `assert <engine>.match(pattern, v) is not None; return v`: only a prefix of `v`
      has to fit. */
  function PrefixCheck(e: Engine, pattern: string, lang: string -> bool, field: string, v: string)
    : (r: Result<string>)
    ensures r.Ok? <==> Compile(e, pattern).Ok? && PrefixMatch(lang, v)
    ensures r.Ok? ==> r.value == v
    ensures Compile(e, pattern).Err? ==> r == Err(PatternError(pattern))
    ensures Compile(e, pattern).Ok? && !PrefixMatch(lang, v) ==> r == Err(AssertionError(field))
  {
    var _ :- Compile(e, pattern);
    if PrefixMatch(lang, v) then Ok(v) else Err(AssertionError(field))
  }

  /** A pattern without an opening parenthesis cannot hold `(?R)`. */
  lemma NoParenNoRecursion(p: string)
    requires forall i :: 0 <= i < |p| ==> p[i] != '('
    ensures !Contains(p, RECURSION)
  {
    forall i: nat | i <= |p| ensures !OccursAt(p, RECURSION, i) {
      if i + 4 <= |p| {
        assert p[i..i + 4][0] == p[i] != '(';
      }
    }
  }

  /** The character-class patterns compile with either library. */
  lemma ClassPatternsCompile(e: Engine)
    ensures Compile(e, IDENTIFIER_PATTERN).Ok? && Compile(e, IDENTIFIER_REFERENCE).Ok?
    ensures Compile(e, SEGMENT_PATTERN).Ok? && Compile(e, SEGMENT_REFERENCE).Ok?
    ensures Compile(e, SOURCE_PATTERN).Ok?
  {
    NoParenNoRecursion(IDENTIFIER_PATTERN);
    NoParenNoRecursion(IDENTIFIER_REFERENCE);
    NoParenNoRecursion(SEGMENT_PATTERN);
    NoParenNoRecursion(SEGMENT_REFERENCE);
    NoParenNoRecursion(SOURCE_PATTERN);
  }

  /** `fullmatch(IDENTIFIER_PATTERN, v)`: the whole value is a non-empty run of letters,
      digits, `_` and `-`. */
  function FullmatchIdentifier(e: Engine, field: string, v: string): (r: Result<string>)
    ensures r.Ok? <==> IsIdentifier(v)
    ensures r.Ok? <==> |v| > 0 && forall i :: 0 <= i < |v| ==> IsIdentChar(v[i])
    ensures r.Ok? ==> r.value == v
    ensures r.Err? ==> r.error == AssertionError(field)
  {
    ClassPatternsCompile(e);
    FullCheck(e, IDENTIFIER_PATTERN, IsIdentifier, field, v)
  }

  /** `re.match(IDENTIFIER_PATTERN, v)`: only the first character is looked at. */
  function MatchIdentifier(field: string, v: string): (r: Result<string>)
    ensures r.Ok? <==> |v| > 0 && IsIdentChar(v[0])
    ensures r.Ok? ==> r.value == v
    ensures r.Err? ==> r.error == AssertionError(field)
  {
    ClassPatternsCompile(Stdlib);
    IdentifierPrefix(v);
    PrefixCheck(Stdlib, IDENTIFIER_PATTERN, IsIdentifier, field, v)
  }

  /** `re.match("[><A-Za-z0-9_-]+", v)`: the first character is a segment character. */
  function MatchSegment(field: string, v: string): (r: Result<string>)
    ensures r.Ok? <==> |v| > 0 && IsSegmentChar(v[0])
    ensures r.Ok? ==> r.value == v
    ensures r.Err? ==> r.error == AssertionError(field)
  {
    ClassPatternsCompile(Stdlib);
    SegmentPrefix(v);
    PrefixCheck(Stdlib, SEGMENT_PATTERN, IsSegment, field, v)
  }

  /** `fullmatch(IDENTIFIER_REFERENCE, v)`: exactly `#` followed by an identifier. */
  function FullmatchReference(e: Engine, field: string, v: string): (r: Result<string>)
    ensures r.Ok? <==> |v| >= 2 && v[0] == '#' && forall i :: 1 <= i < |v| ==> IsIdentChar(v[i])
    ensures r.Ok? <==> IsReference(v)
    ensures r.Ok? ==> r.value == v
    ensures r.Err? ==> r.error == AssertionError(field)
  {
    ClassPatternsCompile(e);
    ReferenceChars(v);
    FullCheck(e, IDENTIFIER_REFERENCE, IsReference, field, v)
  }

  lemma ReferenceChars(v: string)
    ensures IsReference(v) <==> |v| >= 2 && v[0] == '#' && forall i :: 1 <= i < |v| ==> IsIdentChar(v[i])
  {
    if |v| >= 2 && v[0] == '#' && forall i :: 1 <= i < |v| ==> IsIdentChar(v[i]) {
      assert forall i :: 0 <= i < |v[1..]| ==> v[1..][i] == v[i + 1];
    }
    if IsReference(v) {
      forall i | 1 <= i < |v| ensures IsIdentChar(v[i]) {
        assert v[1..][i - 1] == v[i];
      }
    }
  }

  /** `re.match(IDENTIFIER_REFERENCE, v)`: a `#` and then one identifier character. */
  function MatchReference(field: string, v: string): (r: Result<string>)
    ensures r.Ok? <==> |v| >= 2 && v[0] == '#' && IsIdentChar(v[1])
    ensures r.Ok? ==> r.value == v
    ensures r.Err? ==> r.error == AssertionError(field)
  {
    ClassPatternsCompile(Stdlib);
    ReferencePrefix(v);
    PrefixCheck(Stdlib, IDENTIFIER_REFERENCE, IsReference, field, v)
  }

  /** `re.match("#[><A-Za-z0-9_-]+", v)`: a `#` and then one segment character. */
  function MatchSegmentReference(field: string, v: string): (r: Result<string>)
    ensures r.Ok? <==> |v| >= 2 && v[0] == '#' && IsSegmentChar(v[1])
    ensures r.Ok? ==> r.value == v
    ensures r.Err? ==> r.error == AssertionError(field)
  {
    ClassPatternsCompile(Stdlib);
    SegmentReferencePrefix(v);
    PrefixCheck(Stdlib, SEGMENT_REFERENCE, IsSegmentReference, field, v)
  }

  /** A type validator that hands a pattern embedding the type pattern to the standard
      `re` module, by `fullmatch` or by `match`: compiling raises, whatever the value. */
  function StdlibType(fullmatch: bool, before: string, field: string, v: string): (r: Result<string>)
    ensures r == Err(PatternError(before + TYPE_PATTERN))
  {
    TypePatternRecurses(before);
    var pattern := before + TYPE_PATTERN;
    var lang := s => Matches(Generic, s);
    if fullmatch then FullCheck(Stdlib, pattern, lang, field, v)
    else PrefixCheck(Stdlib, pattern, lang, field, v)
  }

  /** A type validator that hands the type pattern to the `regex` module, which
      compiles `(?R)`: the whole value must fit grammar `g`. */
  function RegexType(g: Grammar, pattern: string, field: string, v: string): (r: Result<string>)
    ensures r.Ok? <==> Matches(g, v)
    ensures r.Ok? ==> r.value == v
    ensures r.Err? ==> r.error == AssertionError(field)
  {
    FullCheck(RegexModule, pattern, s => Matches(g, s), field, v)
  }

  /** `fullmatch` of a pattern that spells one literal type (anchors aside): exactly
      that literal passes. */
  function ExactType(literal: string, v: string): (r: Result<string>)
    ensures r.Ok? <==> v == literal
    ensures r.Ok? ==> r.value == v
    ensures r.Err? ==> r.error == AssertionError("type")
  {
    if v == literal then Ok(v) else Err(AssertionError("type"))
  }

  /** The type validator of the plot and report records: a whole-string match of the
      type pattern with `regex`, and then a whole-string match of one literal. */
  function LiteralType(literal: string, v: string): (r: Result<string>)
    ensures r.Ok? <==> IsType(v) && v == literal
    ensures r.Ok? ==> r.value == v
    ensures r.Err? ==> r.error == AssertionError("type")
  {
    var _ :- RegexType(Generic, TYPE_PATTERN, "type", v);
    ExactType(literal, v)
  }

  /** When the literal is itself a type, the first check never decides. */
  lemma QualifiedLiteralType(head: string, tail: string, v: string)
    requires IsIdentifier(head) && IsIdentifier(tail)
    ensures LiteralType(head + "::" + tail, v).Ok? <==> v == head + "::" + tail
  {
    QualifiedLiteralIsType(head, tail);
  }

  /** Whole-string and prefix matching disagree: "c1!!" is no identifier, yet it starts
      with one; "a!" fails the whole-string check; the empty string fails both. */
  lemma IdentifierExamples(e: Engine)
    ensures FullmatchIdentifier(e, "identifier", "a-b_9").Ok?
    ensures FullmatchIdentifier(e, "identifier", "a!").Err?
    ensures FullmatchIdentifier(e, "identifier", "").Err?
    ensures MatchIdentifier("identifier", "c1!!").Ok?
    ensures MatchIdentifier("identifier", "").Err?
  {
    assert !IsIdentChar("a!"[1]);
  }

  /** Running every field validator of a model, in field order, as pydantic does: an
      exception it collects lets the later validators run and is reported if nothing
      escapes; any other exception escapes at once. */
  function Settle(rs: seq<Result<string>>): (r: Result<seq<string>>)
    ensures r.Ok? <==> forall i :: 0 <= i < |rs| ==> rs[i].Ok?
    ensures r.Ok? ==> |r.value| == |rs| && forall i :: 0 <= i < |rs| ==> r.value[i] == rs[i].value
    ensures r.Err? ==> exists i :: 0 <= i < |rs| && rs[i] == Err(r.error)
    ensures (exists i :: 0 <= i < |rs| && rs[i].Err? && !rs[i].error.IsCollected()) ==>
              r.Err? && !r.error.IsCollected()
  {
    if rs == [] then Ok([])
    else
      var rest := Settle(rs[1..]);
      match rs[0]
      case Ok(v) => if rest.Ok? then Ok([v] + rest.value) else Err(rest.error)
      case Err(e) => if e.IsCollected() && rest.Err? && !rest.error.IsCollected() then rest else Err(e)
  }

  /** Settling reports the first error when every error is one pydantic collects. */
  lemma {:induction false} SettleFirstCollected(rs: seq<Result<string>>, k: nat)
    requires k < |rs| && rs[k].Err? && forall i :: 0 <= i < k ==> rs[i].Ok?
    requires forall i :: 0 <= i < |rs| && rs[i].Err? ==> rs[i].error.IsCollected()
    ensures Settle(rs) == Err(rs[k].error)
  {
    if k > 0 {
      SettleFirstCollected(rs[1..], k - 1);
    } else {
      var rest := Settle(rs[1..]);
      if rest.Err? {
        var i :| 0 <= i < |rs[1..]| && rs[1..][i] == Err(rest.error);
        assert rs[i + 1] == Err(rest.error);
      }
    }
  }

  /** The first exception that escapes is the one reported, whatever was collected before. */
  lemma {:induction false} SettleFirstEscaping(rs: seq<Result<string>>, k: nat)
    requires k < |rs| && rs[k].Err? && !rs[k].error.IsCollected()
    requires forall i :: 0 <= i < k ==> rs[i].Ok? || rs[i].error.IsCollected()
    ensures Settle(rs) == Err(rs[k].error)
  {
    if k > 0 {
      SettleFirstEscaping(rs[1..], k - 1);
    }
  }

  /** A type check whose exception escapes, after an identifier check that passes or is
      collected, decides the outcome whatever the later fields give. */
  lemma TypeCheckEscapes(id: Result<string>, ty: Result<string>, rest: seq<Result<string>>)
    requires id.Ok? || id.error.IsCollected()
    requires ty.Err? && !ty.error.IsCollected()
    ensures Settle([id, ty] + rest) == Err(ty.error)
  {
    var rs := [id, ty] + rest;
    assert rs[0] == id && rs[1] == ty;
    SettleFirstEscaping(rs, 1);
  }

  /** When no validator lets an exception escape, the first failing field is reported. */
  lemma SettleAllCollected(rs: seq<Result<string>>)
    requires forall i :: 0 <= i < |rs| && rs[i].Err? ==> rs[i].error.IsCollected()
    ensures forall k :: 0 <= k < |rs| && rs[k].Err? && (forall i :: 0 <= i < k ==> rs[i].Ok?) ==>
              Settle(rs) == Err(rs[k].error)
  {
    forall k | 0 <= k < |rs| && rs[k].Err? && (forall i :: 0 <= i < k ==> rs[i].Ok?)
      ensures Settle(rs) == Err(rs[k].error)
    {
      SettleFirstCollected(rs, k);
    }
  }

  /** Three validators whose errors pydantic collects: the first failing one is reported. */
  lemma SettleThree(a: Result<string>, b: Result<string>, c: Result<string>)
    requires a.Err? ==> a.error.IsCollected()
    requires b.Err? ==> b.error.IsCollected()
    requires c.Err? ==> c.error.IsCollected()
    ensures Settle([a, b, c]).Ok? <==> a.Ok? && b.Ok? && c.Ok?
    ensures a.Err? ==> Settle([a, b, c]) == Err(a.error)
    ensures a.Ok? && b.Err? ==> Settle([a, b, c]) == Err(b.error)
    ensures a.Ok? && b.Ok? && c.Err? ==> Settle([a, b, c]) == Err(c.error)
  {
    var rs := [a, b, c];
    assert forall i :: 0 <= i < |rs| && rs[i].Err? ==> rs[i].error.IsCollected();
    if a.Err? {
      SettleFirstCollected(rs, 0);
    } else if b.Err? {
      SettleFirstCollected(rs, 1);
    } else if c.Err? {
      SettleFirstCollected(rs, 2);
    }
  }

  /** `re.match("[><A-Za-z0-9_-]+", element)` for each part in turn. */
  function SegmentParts(field: string, parts: seq<string>): (r: Result<()>)
    ensures r.Ok? <==> forall i :: 0 <= i < |parts| ==> |parts[i]| > 0 && IsSegmentChar(parts[i][0])
    ensures r.Err? ==> r.error == AssertionError(field)
  {
    if parts == [] then Ok(())
    else
      var _ :- MatchSegment(field, parts[0]);
      SegmentParts(field, parts[1..])
  }

  /** The older snapshot's type rule: `re.split("::", v)` gives at least two parts and
      each part starts with a segment character. */
  function SplitType(field: string, v: string): (r: Result<string>)
    ensures r.Ok? <==> var parts := Split(v, "::");
      |parts| >= 2 && forall i :: 0 <= i < |parts| ==> |parts[i]| > 0 && IsSegmentChar(parts[i][0])
    ensures r.Ok? ==> r.value == v && Contains(v, "::")
    ensures r.Err? ==> r.error == AssertionError(field)
  {
    var parts := Split(v, "::");
    if |parts| < 2 then Err(AssertionError(field))
    else
      var _ :- SegmentParts(field, parts);
      Ok(v)
  }

  /** Two colon-free segments joined by `::` pass the split rule. */
  lemma TwoSegmentsPass(field: string, a: string, b: string)
    requires |a| > 0 && |b| > 0 && IsSegmentChar(a[0]) && IsSegmentChar(b[0])
    requires forall i :: 0 <= i < |a| ==> a[i] != ':'
    requires forall i :: 0 <= i < |b| ==> b[i] != ':'
    ensures SplitType(field, a + "::" + b) == Ok(a + "::" + b)
  {
    SplitPair(a, b, "::");
  }

  /** A type without a colon is a single part and fails the split rule. */
  lemma OneSegmentFails(field: string, a: string)
    requires forall i :: 0 <= i < |a| ==> a[i] != ':'
    ensures SplitType(field, a) == Err(AssertionError(field))
  {
    SplitWhole(a, "::");
  }

  /** Two segments joined by `::` pass the split rule. */
  lemma QualifiedSplitTypeAccepted()
    ensures SplitType("type", "org1::mytype") == Ok("org1::mytype")
  {
    TwoSegmentsPass("type", "org1", "mytype");
    assert "org1" + "::" + "mytype" == "org1::mytype";
  }

  /** Without `::` the type is rejected, and so is a trailing `::`, which leaves an empty
      last part. */
  lemma UnqualifiedSplitTypeRejected()
    ensures SplitType("type", "mytype") == Err(AssertionError("type"))
    ensures SplitType("type", "a::") == Err(AssertionError("type"))
  {
    OneSegmentFails("type", "mytype");
    SplitPair("a", "", "::");
    assert "a" + "::" + "" == "a::";
  }

  /** Three colons in a row split as `a` and `:b`: the second part starts with a colon. */
  lemma TripleColonRejected()
    ensures SplitType("type", "a:::b") == Err(AssertionError("type"))
  {
    var s := "a:::b";
    assert s[1..3] == "::";
    assert s[0..2][0] == 'a';
    SplitAt(s, "::", 1);
    assert s[3..] == ":b";
    assert !Contains(":b", "::") by {
      forall i: nat | i <= 2 ensures !OccursAt(":b", "::", i) {
        if i == 0 { assert ":b"[0..2][1] == 'b'; }
      }
    }
    assert Split(":b", "::") == [":b"];
  }
}
