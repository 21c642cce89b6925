/** The character classes and patterns of `src/sed_tooling/sed_model/pattens.py`, the
    two ways the code applies a pattern (`match`: a prefix fits; `fullmatch`: the whole
    string fits) and the recursive type grammar, whose `(?R)` re-enters the whole pattern. */
module Patterns {
  import opened Outcomes
  import opened PyText

  predicate IsAsciiLetter(c: char) { 'A' <= c <= 'Z' || 'a' <= c <= 'z' }

  predicate IsAsciiDigit(c: char) { '0' <= c <= '9' }

  /** `[A-Za-z0-9_-]` */
  predicate IsIdentChar(c: char) { IsAsciiLetter(c) || IsAsciiDigit(c) || c == '_' || c == '-' }

  /** `[><A-Za-z0-9_-]`: the first segment of a type may also hold angle brackets. */
  predicate IsSegmentChar(c: char) { IsIdentChar(c) || c == '<' || c == '>' }

  /** `[ ><A-Za-z0-9_:,-]`: the characters a type may be written with. */
  predicate IsTypeChar(c: char) { IsSegmentChar(c) || c == ' ' || c == ':' || c == ',' }

  /** `[A-Za-z0-9_\/-]`: the characters of a dependency source. */
  predicate IsSourceChar(c: char) { IsIdentChar(c) || c == '/' }

  /** `cls+` matched against a whole string: a non-empty run of one character class. */
  predicate Run(cls: char -> bool, s: string) {
    |s| > 0 && forall i :: 0 <= i < |s| ==> cls(s[i])
  }

  /** IDENTIFIER_PATTERN, `[A-Za-z0-9_-]+`. */
  predicate IsIdentifier(s: string) { Run(IsIdentChar, s) }

  /** `[><A-Za-z0-9_-]+` */
  predicate IsSegment(s: string) { Run(IsSegmentChar, s) }

  /** `[A-Za-z0-9_\/-]+` */
  predicate IsSource(s: string) { Run(IsSourceChar, s) }

  /** IDENTIFIER_REFERENCE, `#[A-Za-z0-9_-]+`: a `#` and then an identifier. */
  predicate IsReference(s: string) { |s| > 0 && s[0] == '#' && IsIdentifier(s[1..]) }

  /** `#[><A-Za-z0-9_-]+` */
  predicate IsSegmentReference(s: string) { |s| > 0 && s[0] == '#' && IsSegment(s[1..]) }

  /** `re.match(p, s) is not None` where `p` denotes `lang`: some prefix of `s` fits. */
  predicate PrefixMatch(lang: string -> bool, s: string) {
    exists k :: 0 <= k <= |s| && lang(s[..k])
  }

  /** A prefix match of a character-class run only looks at the first character. */
  lemma RunPrefix(cls: char -> bool, lang: string -> bool, s: string)
    requires forall t :: lang(t) == Run(cls, t)
    ensures PrefixMatch(lang, s) <==> |s| > 0 && cls(s[0])
  {
    if |s| > 0 && cls(s[0]) {
      assert lang(s[..1]);
    }
    if PrefixMatch(lang, s) {
      var k :| 0 <= k <= |s| && lang(s[..k]);
      assert s[..k][0] == s[0];
    }
  }

  /** `re.match(IDENTIFIER_PATTERN, s)` succeeds iff the first character is an identifier character. */
  lemma IdentifierPrefix(s: string)
    ensures PrefixMatch(IsIdentifier, s) <==> |s| > 0 && IsIdentChar(s[0])
  {
    RunPrefix(IsIdentChar, IsIdentifier, s);
  }

  /** `re.match("[><A-Za-z0-9_-]+", s)` succeeds iff the first character is a segment character. */
  lemma SegmentPrefix(s: string)
    ensures PrefixMatch(IsSegment, s) <==> |s| > 0 && IsSegmentChar(s[0])
  {
    RunPrefix(IsSegmentChar, IsSegment, s);
  }

  /** `re.match("[A-Za-z0-9_\/-]+", s)` succeeds iff the first character is a source character. */
  lemma SourcePrefix(s: string)
    ensures PrefixMatch(IsSource, s) <==> |s| > 0 && IsSourceChar(s[0])
  {
    RunPrefix(IsSourceChar, IsSource, s);
  }

  /** `re.match(IDENTIFIER_REFERENCE, s)` succeeds iff `s` starts with `#` and an identifier character. */
  lemma ReferencePrefix(s: string)
    ensures PrefixMatch(IsReference, s) <==> |s| >= 2 && s[0] == '#' && IsIdentChar(s[1])
  {
    if |s| >= 2 && s[0] == '#' && IsIdentChar(s[1]) {
      assert s[..2][1..] == [s[1]];
      assert IsReference(s[..2]);
    }
    if PrefixMatch(IsReference, s) {
      var k :| 0 <= k <= |s| && IsReference(s[..k]);
      assert s[..k][0] == s[0] && s[..k][1..][0] == s[1];
    }
  }

  /** `re.match("#[><A-Za-z0-9_-]+", s)` succeeds iff `s` starts with `#` and a segment character. */
  lemma SegmentReferencePrefix(s: string)
    ensures PrefixMatch(IsSegmentReference, s) <==> |s| >= 2 && s[0] == '#' && IsSegmentChar(s[1])
  {
    if |s| >= 2 && s[0] == '#' && IsSegmentChar(s[1]) {
      assert s[..2][1..] == [s[1]];
      assert IsSegmentReference(s[..2]);
    }
    if PrefixMatch(IsSegmentReference, s) {
      var k :| 0 <= k <= |s| && IsSegmentReference(s[..k]);
      assert s[..k][0] == s[0] && s[..k][1..][0] == s[1];
    }
  }

  /** A whole reference is in particular a prefix match. */
  lemma ReferenceIsPrefixMatch(s: string)
    requires IsReference(s)
    ensures PrefixMatch(IsReference, s)
  {
    assert s[..|s|] == s;
  }

  const TYPE_PATTERN: string := "[><A-Za-z0-9_-]+(::[A-Za-z0-9_-]+)*(<( *(?R) *, *)*(?R)>)?"
  const RECURSION: string := "(?R)"

  /** Compiling a pattern with the standard `re` module. It has no `(?R)` construct, so a
      pattern that uses one raises `re.error` on every call, whatever string it is applied to. */
  function StdlibCompile(pattern: string): (r: Result<string>)
    ensures r.Err? <==> Contains(pattern, RECURSION)
    ensures r.Ok? ==> r.value == pattern
  {
    if Contains(pattern, RECURSION) then Err(PatternError(pattern)) else Ok(pattern)
  }

  /** The type pattern, and any pattern built by putting text before it, uses `(?R)`. */
  lemma TypePatternRecurses(before: string)
    ensures Contains(before + TYPE_PATTERN, RECURSION)
    ensures StdlibCompile(before + TYPE_PATTERN).Err?
  {
    var p := before + TYPE_PATTERN;
    assert TYPE_PATTERN[40..44] == RECURSION;
    assert p[|before| + 40..|before| + 44] == TYPE_PATTERN[40..44];
    assert OccursAt(p, RECURSION, |before| + 40);
  }

  /** Whether `(?R)` re-enters the bare type pattern, or a pattern that wraps it as
      `prefix + type + ">"` (the prefixed patterns of nonspatial_sim.py). */
  datatype Grammar = Generic | Wrapped(prefix: string)

  predicate Spaces(s: string) {
    forall i :: 0 <= i < |s| ==> s[i] == ' '
  }

  /** `(::[A-Za-z0-9_-]+)*` */
  predicate Tails(t: string)
    decreases |t|
  {
    || t == []
    || (&& |t| >= 3 && t[..2] == "::"
        && exists e :: 2 < e <= |t| && IsIdentifier(t[2..e]) && Tails(t[e..]))
  }

  /** `[><A-Za-z0-9_-]+(::[A-Za-z0-9_-]+)*` */
  predicate IsQualifiedName(q: string) {
    exists h :: 0 < h <= |q| && IsSegment(q[..h]) && Tails(q[h..])
  }

  /** The whole string fits the grammar. */
  predicate Matches(g: Grammar, s: string)
    decreases |s|, 2
  {
    match g
    case Generic => Body(g, s)
    case Wrapped(w) => |s| > |w| && s[..|w|] == w && s[|s| - 1] == '>' && Body(g, s[|w|..|s| - 1])
  }

  /** A qualified name, optionally followed by an argument list. */
  predicate Body(g: Grammar, s: string)
    decreases |s|, 1
  {
    exists j :: 0 < j <= |s| && IsQualifiedName(s[..j]) && (j == |s| || Args(g, s[j..]))
  }

  /** `<( *(?R) *, *)*(?R)>` */
  predicate Args(g: Grammar, a: string)
    decreases |a|, 0
  {
    |a| >= 2 && a[0] == '<' && a[|a| - 1] == '>' && ArgList(g, a[1..|a| - 1])
  }

  /** `( *(?R) *, *)*(?R)`: items followed by one last whole match. */
  predicate ArgList(g: Grammar, q: string)
    decreases |q|, 3
  {
    || Matches(g, q)
    || exists k :: 0 < k < |q| && Item(g, q[..k]) && ArgList(g, q[k..])
  }

  /** ` *(?R) *, *` */
  predicate Item(g: Grammar, x: string)
    decreases |x|, 0
  {
    exists i, j, c :: 0 <= i < j <= c < |x|
      && Spaces(x[..i]) && Matches(g, x[i..j]) && Spaces(x[j..c]) && x[c] == ',' && Spaces(x[c + 1..])
  }

  // ---------------------------------------------------------------- properties

  /** Every identifier is a type. */
  lemma IdentifierIsType(s: string)
    requires IsIdentifier(s)
    ensures Matches(Generic, s)
  {
    assert s[..|s|] == s && s[|s|..] == [];
    assert IsQualifiedName(s[..|s|]);
  }

  predicate TypeCharsOnly(s: string) {
    forall i :: 0 <= i < |s| ==> IsTypeChar(s[i])
  }

  predicate GrammarChars(g: Grammar) {
    g.Wrapped? ==> TypeCharsOnly(g.prefix)
  }

  lemma TypeCharsConcat(a: string, b: string)
    requires TypeCharsOnly(a) && TypeCharsOnly(b)
    ensures TypeCharsOnly(a + b)
  {
  }

  /** After the first segment, a qualified name holds only identifier characters and colons. */
  lemma {:induction false} TailsChars(t: string)
    requires Tails(t)
    ensures forall i :: 0 <= i < |t| ==> IsIdentChar(t[i]) || t[i] == ':'
    decreases |t|
  {
    if t != [] {
      var e :| 2 < e <= |t| && IsIdentifier(t[2..e]) && Tails(t[e..]);
      TailsChars(t[e..]);
      forall i | 0 <= i < |t| ensures IsIdentChar(t[i]) || t[i] == ':' {
        if i < 2 { assert t[..2][i] == t[i]; }
        else if i < e { assert t[2..e][i - 2] == t[i]; }
        else { assert t[e..][i - e] == t[i]; }
      }
    }
  }

  /** A qualified name is a segment followed by characters without angle brackets. */
  lemma QualifiedNameShape(q: string) returns (h: nat)
    requires IsQualifiedName(q)
    ensures 0 < h <= |q| && IsSegment(q[..h])
    ensures forall i :: h <= i < |q| ==> IsIdentChar(q[i]) || q[i] == ':'
  {
    h :| 0 < h <= |q| && IsSegment(q[..h]) && Tails(q[h..]);
    TailsChars(q[h..]);
    forall i | h <= i < |q| ensures IsIdentChar(q[i]) || q[i] == ':' {
      assert q[h..][i - h] == q[i];
    }
  }

  lemma QualifiedNameChars(q: string)
    requires IsQualifiedName(q)
    ensures TypeCharsOnly(q)
  {
    var h := QualifiedNameShape(q);
    forall i | 0 <= i < |q| ensures IsTypeChar(q[i]) {
      if i < h { assert q[..h][i] == q[i]; }
    }
  }

  /** Every valid type is written with TYPE_CHARS only. */
  lemma {:induction false} MatchesChars(g: Grammar, s: string)
    requires GrammarChars(g) && Matches(g, s)
    ensures TypeCharsOnly(s)
    decreases |s|, 2
  {
    match g
    case Generic => BodyChars(g, s);
    case Wrapped(w) =>
      var body := s[|w|..|s| - 1];
      BodyChars(g, body);
      assert s == w + body + [s[|s| - 1]];
      TypeCharsConcat(w, body);
  }

  lemma {:induction false} BodyChars(g: Grammar, s: string)
    requires GrammarChars(g) && Body(g, s)
    ensures TypeCharsOnly(s)
    decreases |s|, 1
  {
    var j :| 0 < j <= |s| && IsQualifiedName(s[..j]) && (j == |s| || Args(g, s[j..]));
    QualifiedNameChars(s[..j]);
    if j < |s| {
      ArgsChars(g, s[j..]);
      assert s == s[..j] + s[j..];
      TypeCharsConcat(s[..j], s[j..]);
    } else {
      assert s == s[..j];
    }
  }

  lemma {:induction false} ArgsChars(g: Grammar, a: string)
    requires GrammarChars(g) && Args(g, a)
    ensures TypeCharsOnly(a)
    decreases |a|, 0
  {
    var inner := a[1..|a| - 1];
    ArgListChars(g, inner);
    assert a == [a[0]] + inner + [a[|a| - 1]];
  }

  lemma {:induction false} ArgListChars(g: Grammar, q: string)
    requires GrammarChars(g) && ArgList(g, q)
    ensures TypeCharsOnly(q)
    decreases |q|, 3
  {
    if Matches(g, q) {
      MatchesChars(g, q);
    } else {
      var k :| 0 < k < |q| && Item(g, q[..k]) && ArgList(g, q[k..]);
      ItemChars(g, q[..k]);
      ArgListChars(g, q[k..]);
      assert q == q[..k] + q[k..];
      TypeCharsConcat(q[..k], q[k..]);
    }
  }

  lemma {:induction false} ItemChars(g: Grammar, x: string)
    requires GrammarChars(g) && Item(g, x)
    ensures TypeCharsOnly(x)
    decreases |x|, 0
  {
    var i, j, c :| 0 <= i < j <= c < |x|
      && Spaces(x[..i]) && Matches(g, x[i..j]) && Spaces(x[j..c]) && x[c] == ',' && Spaces(x[c + 1..]);
    MatchesChars(g, x[i..j]);
    forall k | 0 <= k < |x| ensures IsTypeChar(x[k]) {
      if k < i { assert x[..i][k] == x[k]; }
      else if k < j { assert x[i..j][k - i] == x[k]; }
      else if k < c { assert x[j..c][k - j] == x[k]; }
      else if k > c { assert x[c + 1..][k - c - 1] == x[k]; }
    }
  }

  /** `"bad type!"` is not a type: `!` is never allowed. */
  lemma BadTypeRejected()
    ensures !Matches(Generic, "bad type!")
  {
    var s := "bad type!";
    assert !IsTypeChar(s[8]);
    if Matches(Generic, s) {
      MatchesChars(Generic, s);
    }
  }

  /** `"org1::mytype"` is a type: a segment, then one `::` tail. */
  lemma QualifiedTypeAccepted()
    ensures Matches(Generic, "org1::mytype")
  {
    var s := "org1::mytype";
    var t := s[4..];
    assert t[..2] == "::" && t[2..] == "mytype" && t[|t|..] == [];
    assert IsIdentifier(t[2..|t|]);
    assert Tails(t);
    assert s[..4] == "org1" && IsSegment(s[..4]);
    assert s[..|s|] == s;
    assert IsQualifiedName(s[..|s|]);
  }

  /** A name, `::` and an identifier make a type. */
  lemma QualifiedLiteralIsType(head: string, tail: string)
    requires IsIdentifier(head) && IsIdentifier(tail)
    ensures Matches(Generic, head + "::" + tail)
  {
    var s := head + "::" + tail;
    var t := s[|head|..];
    assert t[..2] == "::" && t[2..] == tail && t[|t|..] == [];
    assert IsIdentifier(t[2..|t|]);
    assert Tails(t);
    assert s[..|head|] == head && IsSegment(s[..|head|]);
    assert s[..|s|] == s;
    assert IsQualifiedName(s[..|s|]);
  }

  /** `"a<b"` is a type: angle brackets are segment characters of the first segment. */
  lemma AngleInFirstSegmentAccepted()
    ensures Matches(Generic, "a<b")
  {
    var s := "a<b";
    assert IsSegment(s) && s[..|s|] == s && s[|s|..] == [];
    assert IsQualifiedName(s[..|s|]);
  }

  /** `"a::b<c"` is not a type: after `::` no angle bracket may appear outside an argument
      list, and there is no closing `>` for one. */
  lemma AngleAfterTailRejected()
    ensures !Matches(Generic, "a::b<c")
  {
    var s := "a::b<c";
    assert s[1] == ':' && !IsIdentChar(s[4]) && s[4] != ':' && s[|s| - 1] != '>';
    if Body(Generic, s) {
      var j :| 0 < j <= |s| && IsQualifiedName(s[..j]) && (j == |s| || Args(Generic, s[j..]));
      if j == |s| {
        assert s[..j] == s;
        QualifiedNameColon(s, 1, 4);
      }
    }
  }

  /** Once a colon has appeared in a qualified name, no angle bracket follows it. */
  lemma QualifiedNameColon(q: string, i: nat, k: nat)
    requires IsQualifiedName(q) && i < k < |q| && q[i] == ':'
    ensures IsIdentChar(q[k]) || q[k] == ':'
  {
    var h := QualifiedNameShape(q);
  }

  /** `"Model<sbml::SBMLFile>"` is a type through its argument list: the whole string is
      no qualified name, but `Model` followed by `<sbml::SBMLFile>` is. */
  lemma ParameterisedTypeAccepted()
    ensures Matches(Generic, "Model<sbml::SBMLFile>")
  {
    ParameterisedParts();
    QualifiedPairIsType("sbml", "SBMLFile");
    assert "sbml" + "::" + "SBMLFile" == "sbml::SBMLFile";
    SegmentWithArgument("Model", "sbml::SBMLFile");
    assert "Model" + "<" + "sbml::SBMLFile" + ">" == "Model<sbml::SBMLFile>";
  }

  lemma ParameterisedParts()
    ensures IsSegment("sbml") && IsIdentifier("SBMLFile") && IsSegment("Model")
  {
  }

  /** A segment, `::` and an identifier make a type. */
  lemma QualifiedPairIsType(a: string, b: string)
    requires IsSegment(a) && IsIdentifier(b)
    ensures Matches(Generic, a + "::" + b)
  {
    var q := a + "::" + b;
    var t := q[|a|..];
    assert t == "::" + b;
    assert t[..2] == "::";
    assert t[2..|t|] == b;
    assert t[|t|..] == [];
    assert Tails(t[|t|..]);
    assert Tails(t);
    assert q[..|a|] == a;
    assert IsQualifiedName(q);
    assert q[..|q|] == q;
  }

  /** A segment followed by one type in angle brackets is a type. */
  lemma SegmentWithArgument(a: string, arg: string)
    requires IsSegment(a) && Matches(Generic, arg)
    ensures Matches(Generic, a + "<" + arg + ">")
  {
    SegmentWithArguments(a, arg);
  }

  /** A segment followed by an argument list in angle brackets is a type. */
  lemma SegmentWithArguments(a: string, q: string)
    requires IsSegment(a) && ArgList(Generic, q)
    ensures Matches(Generic, a + "<" + q + ">")
  {
    var s := a + "<" + q + ">";
    assert s[..|a|] == a && s[..|a|][..|a|] == a && s[..|a|][|a|..] == [];
    assert Tails(s[..|a|][|a|..]);
    assert IsQualifiedName(s[..|a|]);
    var x := s[|a|..];
    assert x == "<" + q + ">";
    assert x[1..|x| - 1] == q;
    assert Args(Generic, x);
  }

  /** Two matches separated by a comma form an argument list. */
  lemma CommaPair(g: Grammar, x: string, y: string)
    requires |x| > 0 && Matches(g, x) && Matches(g, y)
    ensures ArgList(g, x + "," + y)
  {
    var q := x + "," + y;
    var k := |x| + 1;
    var it := q[..k];
    assert it == x + ",";
    assert it[..0] == [] && it[0..|x|] == x && it[|x|..|x|] == [] && it[|x|] == ',' && it[|x| + 1..] == [];
    assert Item(g, it);
    assert q[k..] == y;
  }

  /** With a wrapped grammar, every argument list starts (after blanks) with the wrapper:
      `(?R)` re-enters the whole prefixed pattern. */
  lemma ArgListStartsWithPrefix(w: string, q: string) returns (i: nat)
    requires ArgList(Wrapped(w), q)
    ensures i <= |q| && Spaces(q[..i]) && StartsWith(q[i..], w)
  {
    var g := Wrapped(w);
    if Matches(g, q) {
      i := 0;
      assert q[..|w|] == w;
    } else {
      var k :| 0 < k < |q| && Item(g, q[..k]) && ArgList(g, q[k..]);
      i := ItemStartsWithPrefix(w, q[..k]);
      assert q[..i] == q[..k][..i];
      assert q[i..][..|w|] == q[..k][i..][..|w|];
    }
  }

  lemma ItemStartsWithPrefix(w: string, x: string) returns (i: nat)
    requires Item(Wrapped(w), x)
    ensures i + |w| <= |x| && Spaces(x[..i]) && x[i..][..|w|] == w
  {
    var i', j, c :| 0 <= i' < j <= c < |x|
      && Spaces(x[..i']) && Matches(Wrapped(w), x[i'..j]) && Spaces(x[j..c]) && x[c] == ',' && Spaces(x[c + 1..]);
    i := i';
    assert x[i..j][..|w|] == w;
    assert x[i..][..|w|] == x[i..j][..|w|];
  }
}
