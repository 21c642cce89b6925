/** Python's `int()` and `float()` on strings, and `str()` of integers and floats.
    A Python float is represented by the text `str()` gives for it. */
module PyNumbers {
  import opened Outcomes
  import opened PyText

  predicate IsDigit(c: char) { '0' <= c <= '9' }

  function DigitValue(c: char): nat
    requires IsDigit(c)
  {
    (c as int) - ('0' as int)
  }

  function DigitChar(d: nat): (c: char)
    requires d < 10
    ensures IsDigit(c) && DigitValue(c) == d
  {
    (('0' as int) + d) as char
  }

  /** `str(n)` for a natural number: its decimal digits, without leading zeros. */
  function NatText(n: nat): (r: string)
    ensures |r| > 0 && forall i :: 0 <= i < |r| ==> IsDigit(r[i])
    ensures n > 0 ==> r[0] != '0'
    decreases n
  {
    if n < 10 then [DigitChar(n)] else NatText(n / 10) + [DigitChar(n % 10)]
  }

  /** `str(n)` for an integer. */
  function IntText(n: int): (r: string)
    ensures |r| > 0 && (r[0] == '-' <==> n < 0)
    ensures forall i :: 0 < i < |r| ==> IsDigit(r[i])
  {
    if n < 0 then "-" + NatText(-n) else NatText(n)
  }

  /** A digit run as `int()` and `float()` accept it: digits, with single underscores
      allowed between two digits. */
  predicate IsDigitPart(s: string) {
    |s| > 0 && IsDigit(s[0]) && forall i :: 0 <= i < |s| ==> DigitOrJoiner(s, i)
  }

  /** Position `i` holds a digit, or an underscore with a digit right after it. */
  predicate DigitOrJoiner(s: string, i: nat)
    requires i < |s|
  {
    IsDigit(s[i]) || (s[i] == '_' && i + 1 < |s| && IsDigit(s[i + 1]))
  }

  /** The value of a digit run, underscores ignored. */
  function DigitsValue(s: string): nat {
    if s == [] then 0
    else if IsDigit(s[|s| - 1]) then DigitsValue(s[..|s| - 1]) * 10 + DigitValue(s[|s| - 1])
    else DigitsValue(s[..|s| - 1])
  }

  predicate IsSign(c: char) { c == '+' || c == '-' }

  /** `int(s)` for a string: `None` where Python raises `ValueError`. */
  function ParseInt(s: string): (r: Option<int>)
    ensures r.Some? ==> exists k :: 0 <= k < |s| && IsDigit(s[k])
  {
    var t := Strip(s);
    if |t| > 0 && IsSign(t[0]) then
      if IsDigitPart(t[1..]) then
        assert IsDigit(t[1..][0]) && t[1..][0] in s;
        Some(if t[0] == '-' then -(DigitsValue(t[1..]) as int) else DigitsValue(t[1..]) as int)
      else None
    else if IsDigitPart(t) then
      assert IsDigit(t[0]) && t[0] in s;
      Some(DigitsValue(t))
    else None
  }

  lemma {:induction false} NatTextValue(n: nat)
    ensures IsDigitPart(NatText(n)) && DigitsValue(NatText(n)) == n
    decreases n
  {
    var r := NatText(n);
    if n >= 10 {
      NatTextValue(n / 10);
      assert r[..|r| - 1] == NatText(n / 10);
    }
  }

  /** `int(str(n)) == n`. */
  lemma IntTextRoundTrip(n: int)
    ensures ParseInt(IntText(n)) == Some(n)
  {
    IntTextNoSpace(n);
    if n < 0 {
      NatTextValue(-n);
      assert IntText(n)[1..] == NatText(-n);
      NegativeDigitPartInt(IntText(n));
    } else {
      NatTextValue(n);
      DigitPartInt(NatText(n));
    }
  }

  lemma IntTextNoSpace(n: int)
    ensures NoSpace(IntText(n)) && Strip(IntText(n)) == IntText(n)
  {
    var r := IntText(n);
    forall i | 0 <= i < |r| ensures !IsSpace(r[i]) {
      if i > 0 { assert IsDigit(r[i]); }
    }
  }

  /** `int()` reads a minus sign before a stripped digit run as the negated value. */
  lemma {:induction false} NegativeDigitPartInt(t: string)
    requires |t| > 0 && t[0] == '-' && IsDigitPart(t[1..]) && Strip(t) == t
    ensures ParseInt(t) == Some(-(DigitsValue(t[1..]) as int))
  {
  }

  /** ASCII lower-casing, as `float()` compares "inf" and "nan" case-insensitively. */
  function LowerAscii(s: string): (r: string)
    ensures |r| == |s|
    ensures forall i :: 0 <= i < |s| ==> (r[i] == s[i] || ('A' <= s[i] <= 'Z'))
  {
    if s == [] then []
    else
      var c := s[0];
      [if 'A' <= c <= 'Z' then (c as int + 32) as char else c] + LowerAscii(s[1..])
  }

  /** The position of the first exponent marker `e` or `E`. */
  function ExponentMarker(u: string): (r: Option<nat>)
    ensures r.Some? ==> r.value < |u| && (u[r.value] == 'e' || u[r.value] == 'E')
    ensures r.Some? ==> forall i :: 0 <= i < r.value ==> u[i] != 'e' && u[i] != 'E'
    ensures r.None? ==> forall i :: 0 <= i < |u| ==> u[i] != 'e' && u[i] != 'E'
  {
    if u == [] then None
    else if u[0] == 'e' || u[0] == 'E' then Some(0)
    else match ExponentMarker(u[1..])
      case None => None
      case Some(k) => Some(k + 1)
  }

  /** `digitpart "." [digitpart]`, `"." digitpart` or `digitpart`. */
  predicate IsMantissa(m: string) {
    match IndexOf(m, ".")
    case None => IsDigitPart(m)
    case Some(i) =>
      var whole, frac := m[..i], m[i + 1..];
      && (whole != [] || frac != [])
      && (whole == [] || IsDigitPart(whole))
      && (frac == [] || IsDigitPart(frac))
  }

  predicate IsExponent(e: string) {
    if |e| > 0 && IsSign(e[0]) then IsDigitPart(e[1..]) else IsDigitPart(e)
  }

  predicate IsDecimalLiteral(u: string) {
    match ExponentMarker(u)
    case None => IsMantissa(u)
    case Some(i) => IsMantissa(u[..i]) && IsExponent(u[i + 1..])
  }

  /** The text after an optional leading sign. */
  function Unsigned(t: string): (u: string)
    ensures |u| <= |t| && u == t[|t| - |u|..]
    ensures |t| > 0 && !IsSign(t[0]) ==> u == t
  {
    if |t| > 0 && IsSign(t[0]) then t[1..] else t
  }

  /** "inf", "infinity" or "nan", in any mix of cases. */
  predicate IsNamedFloat(u: string) {
    var l := LowerAscii(u);
    l == "inf" || l == "infinity" || l == "nan"
  }

  /** `float(s)` succeeds: after stripping, an optional sign and then a decimal
      literal or one of "inf", "infinity", "nan" in any case. */
  predicate ParsesAsFloat(s: string) {
    var u := Unsigned(Strip(s));
    IsDecimalLiteral(u) || IsNamedFloat(u)
  }

  /** The text `str()` gives for a float is stripped and accepted by `float()`. */
  predicate IsFloatText(s: string) {
    ParsesAsFloat(s) && Strip(s) == s
  }

  lemma MantissaStartsWell(m: string)
    requires IsMantissa(m)
    ensures |m| > 0 && (IsDigit(m[0]) || m[0] == '.')
  {
    match IndexOf(m, ".")
    case None =>
    case Some(i) =>
      if i > 0 { assert m[..i][0] == m[0]; }
  }

  lemma DecimalStartsWell(u: string)
    requires IsDecimalLiteral(u)
    ensures |u| > 0 && (IsDigit(u[0]) || u[0] == '.')
  {
    match ExponentMarker(u)
    case None => MantissaStartsWell(u);
    case Some(i) =>
      MantissaStartsWell(u[..i]);
      assert u[..i][0] == u[0];
  }

  lemma NamedFloatStartsWell(u: string)
    requires IsNamedFloat(u)
    ensures |u| > 0 && u[0] != '#'
  {
    var l := LowerAscii(u);
    assert l[0] == 'i' || l[0] == 'n';
  }

  /** A float's text is never taken for a `#` reference. */
  lemma FloatTextNotReference(f: string)
    requires IsFloatText(f)
    ensures |f| > 0 && f[0] != '#'
  {
    var t := Strip(f);
    assert t == f;
    var u := Unsigned(t);
    assert IsDecimalLiteral(u) || IsNamedFloat(u);
    if IsDecimalLiteral(u) {
      DecimalStartsWell(u);
    } else {
      NamedFloatStartsWell(u);
    }
    assert |u| > 0 && u[0] != '#';
    assert IsSign(f[0]) || u == f;
  }

  /** Every character is a decimal digit. */
  predicate AllDigits(s: string) {
    forall i :: 0 <= i < |s| ==> IsDigit(s[i])
  }

  /** A plain run of digits is read by both `int()` and `float()`. */
  lemma DigitsText(s: string)
    requires |s| > 0 && AllDigits(s)
    ensures ParseInt(s) == Some(DigitsValue(s))
    ensures ParsesAsFloat(s)
  {
    DigitsInt(s);
    DigitsArePart(s);
    DigitsStripped(s);
    DigitPartFloat(s);
  }

  /** A plain run of digits is read by `int()` as its decimal value. */
  lemma DigitsInt(s: string)
    requires |s| > 0 && AllDigits(s)
    ensures ParseInt(s) == Some(DigitsValue(s))
  {
    DigitsArePart(s);
    DigitsStripped(s);
    DigitPartInt(s);
  }

  /** One digit's text has that digit's value. */
  lemma OneDigitValue(c: char)
    requires IsDigit(c)
    ensures DigitsValue([c]) == DigitValue(c)
  {
    assert [c][..0] == [];
  }

  lemma {:induction false} DigitsArePart(s: string)
    requires |s| > 0 && AllDigits(s)
    ensures IsDigitPart(s)
  {
    forall i | 0 <= i < |s| ensures DigitOrJoiner(s, i) {
      assert IsDigit(s[i]);
    }
  }

  lemma {:induction false} DigitsStripped(s: string)
    requires AllDigits(s)
    ensures Strip(s) == s
  {
    assert NoSpace(s) by {
      forall i | 0 <= i < |s| ensures !IsSpace(s[i]) {
        assert IsDigit(s[i]);
      }
    }
  }

  /** `int()` reads an unsigned, stripped digit run as its value. */
  lemma {:induction false} DigitPartInt(s: string)
    requires IsDigitPart(s) && Strip(s) == s
    ensures ParseInt(s) == Some(DigitsValue(s))
  {
  }

  /** A digit run holds neither a point nor an exponent marker. */
  lemma {:induction false} DigitPartPlain(s: string)
    requires IsDigitPart(s)
    ensures IndexOf(s, ".") == None && ExponentMarker(s) == None
  {
    forall i | 0 <= i < |s| ensures s[i] != '.' && s[i] != 'e' && s[i] != 'E' {
      assert DigitOrJoiner(s, i);
    }
    forall i: nat | i <= |s| ensures !OccursAt(s, ".", i) {
      if i < |s| { assert s[i..i + 1][0] == s[i]; }
    }
  }

  /** `float()` reads a stripped digit run. */
  lemma {:induction false} DigitPartFloat(s: string)
    requires IsDigitPart(s) && Strip(s) == s
    ensures ParsesAsFloat(s)
  {
    DigitPartPlain(s);
    assert IsMantissa(s);
    assert IsDecimalLiteral(s);
    assert Unsigned(s) == s;
  }

  /** Text that starts with neither whitespace, a sign, a digit, a point, nor the first
      letter of "inf" or "nan" is read by neither `int()` nor `float()`. */
  lemma NotNumberStart(s: string)
    requires |s| > 0 && !IsSpace(s[0]) && !IsSign(s[0]) && !IsDigit(s[0]) && s[0] != '.'
    requires s[0] != 'i' && s[0] != 'I' && s[0] != 'n' && s[0] != 'N'
    ensures !ParsesAsFloat(s) && ParseInt(s) == None
  {
    StripFirst(s);
    var t := Strip(s);
    assert Unsigned(t) == t;
    if IsDecimalLiteral(t) {
      DecimalStartsWell(t);
    }
  }

  /** `str(float(n))` for an integer whose float is exact: its digits followed by ".0". */
  function FloatOfInt(n: int): string {
    IntText(n) + ".0"
  }

  /** An optional minus sign before a non-empty run of digits: the form `str()` gives
      an integer, allowing "-0". */
  predicate SignedDigits(t: string) {
    || (|t| > 0 && AllDigits(t))
    || (|t| > 1 && t[0] == '-' && AllDigits(t[1..]))
  }

  /** The integer a whole-valued float holds, read from its `str()` text: the integer's
      digits followed by ".0" (`float.is_integer()`); `None` for any other float. */
  function FloatAsInt(f: string): (r: Option<int>)
    ensures r.Some? ==> |f| > 2 && f[|f| - 2..] == ".0" && SignedDigits(f[..|f| - 2])
  {
    if |f| > 2 && f[|f| - 2..] == ".0" && SignedDigits(f[..|f| - 2]) then
      var t := f[..|f| - 2];
      Some(if t[0] == '-' then -(DigitsValue(t[1..]) as int) else DigitsValue(t))
    else None
  }

  /** The integer read from a whole-valued float's text is what `int()` reads from its
      digits. */
  lemma FloatAsIntReadsDigits(f: string)
    requires FloatAsInt(f).Some?
    ensures ParseInt(f[..|f| - 2]) == FloatAsInt(f)
  {
    var t := f[..|f| - 2];
    if t[0] == '-' {
      DigitsArePart(t[1..]);
      SignedStripped(t);
      NegativeDigitPartInt(t);
    } else {
      DigitsInt(t);
    }
  }

  /** A minus sign before digits is left alone by `strip()`. */
  lemma {:induction false} SignedStripped(t: string)
    requires |t| > 1 && t[0] == '-' && AllDigits(t[1..])
    ensures Strip(t) == t
  {
    assert NoSpace(t) by {
      forall i | 0 <= i < |t| ensures !IsSpace(t[i]) {
        if i > 0 { assert IsDigit(t[1..][i - 1]); }
      }
    }
  }

  /** A whole number survives the trip through a float's text: the float `float(n)`
      holds `n` again. */
  lemma FloatAsIntRoundTrip(n: int)
    ensures FloatAsInt(FloatOfInt(n)) == Some(n)
  {
    var f := FloatOfInt(n);
    var t := IntText(n);
    assert f[..|f| - 2] == t && f[|f| - 2..] == ".0";
    if n < 0 {
      assert t[1..] == NatText(-n);
      NatTextValue(-n);
    } else {
      assert t == NatText(n);
      NatTextValue(n);
    }
  }

  /** `str(float(1))` is "1.0". */
  lemma OneAsFloat()
    ensures FloatOfInt(1) == "1.0"
  {
    assert DigitChar(1) == '1';
    assert FloatOfInt(1) == "1" + ".0" == "1.0";
  }

  /** `str(float(n))` is a float's text. */
  lemma FloatOfIntIsFloat(n: int)
    ensures IsFloatText(FloatOfInt(n))
  {
    IntPointZeroIsFloat(n);
  }

  lemma IntPointZeroIsFloat(n: int)
    ensures ParsesAsFloat(IntText(n) + ".0") && Strip(IntText(n) + ".0") == IntText(n) + ".0"
  {
    var r := IntText(n) + ".0";
    IntPointZeroNoSpace(n);
    assert Strip(r) == r;
    var digits := IntPointZeroUnsigned(n);
    DigitsPointZero(digits);
    assert IsDecimalLiteral(Unsigned(Strip(r)));
  }

  lemma IntPointZeroNoSpace(n: int)
    ensures NoSpace(IntText(n) + ".0")
  {
    var r := IntText(n) + ".0";
    forall i | 0 <= i < |r| ensures !IsSpace(r[i]) {
      if 0 < i < |r| - 2 { assert IsDigit(r[i]); }
    }
  }

  lemma IntPointZeroUnsigned(n: int) returns (digits: string)
    ensures IsDigitPart(digits) && forall i :: 0 <= i < |digits| ==> IsDigit(digits[i])
    ensures Unsigned(IntText(n) + ".0") == digits + ".0"
  {
    digits := if n < 0 then NatText(-n) else NatText(n);
    NatTextValue(if n < 0 then -n else n);
  }

  lemma DigitsPointZero(digits: string)
    requires IsDigitPart(digits) && forall i :: 0 <= i < |digits| ==> IsDigit(digits[i])
    ensures IsDecimalLiteral(digits + ".0")
  {
    var u := digits + ".0";
    assert ExponentMarker(u) == None by {
      forall i | 0 <= i < |u| ensures u[i] != 'e' && u[i] != 'E' {
        if i < |digits| { assert IsDigit(digits[i]); }
      }
    }
    assert IndexOf(u, ".") == Some(|digits|) by {
      assert OccursAt(u, ".", |digits|);
      forall i: nat | i < |digits| ensures !OccursAt(u, ".", i) {
        assert u[i..i + 1][0] == digits[i];
      }
    }
    assert u[..|digits|] == digits && u[|digits| + 1..] == "0";
  }
}
