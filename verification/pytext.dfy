/**
 * The parts of Python's `str` and `int` semantics that the collector and the validators rely on:
 * `str.isspace`, `str.strip`, `str.replace(c, '')`, `str.isdigit` and `int(str)` in base 10.
 * Only ASCII digits are treated as digits (see the README).
 */
module PyText {

  import opened Wrappers

  /** `c.isspace()`: the characters Python's `str.strip()` removes. */
  predicate IsSpace(c: char) {
    || ('\t' <= c <= '\r')
    || ('\U{1C}' <= c <= '\U{1F}')
    || c == ' ' || c == '\U{85}' || c == '\U{A0}' || c == '\U{1680}'
    || ('\U{2000}' <= c <= '\U{200A}')
    || c == '\U{2028}' || c == '\U{2029}' || c == '\U{202F}' || c == '\U{205F}' || c == '\U{3000}'
  }

  /** Python truthiness of an optional text argument: present and not empty. */
  predicate Given(s: Option<string>) {
    s.Some? && s.value != []
  }

  predicate AllSpace(s: string) {
    forall i | 0 <= i < |s| :: IsSpace(s[i])
  }

  /** `s.lstrip()`: the suffix left after dropping every leading space. */
  function TrimStart(s: string): (r: string)
    ensures |r| <= |s|
  {
    if s == [] || !IsSpace(s[0]) then s else TrimStart(s[1..])
  }

  /** `s.rstrip()`: the prefix left after dropping every trailing space. */
  function TrimEnd(s: string): (r: string)
    ensures |r| <= |s|
  {
    if s == [] || !IsSpace(s[|s| - 1]) then s else TrimEnd(s[..|s| - 1])
  }

  /** `s.strip()`. */
  function Strip(s: string): (r: string)
    ensures |r| <= |s|
  {
    TrimEnd(TrimStart(s))
  }

  /** `lstrip()` drops a run of spaces and stops at the first character that is not one. */
  lemma {:induction false} TrimStartShape(s: string)
    ensures var r := TrimStart(s); r == s[|s| - |r|..] && AllSpace(s[..|s| - |r|])
    ensures var r := TrimStart(s); r == [] || !IsSpace(r[0])
  {
    if s != [] && IsSpace(s[0]) {
      TrimStartShape(s[1..]);
      var r := TrimStart(s[1..]);
      assert s[..|s| - |r|] == [s[0]] + s[1..][..|s| - 1 - |r|];
    }
  }

  /** `rstrip()` drops a run of spaces and stops at the last character that is not one. */
  lemma {:induction false} TrimEndShape(s: string)
    ensures var r := TrimEnd(s); r == s[..|r|] && AllSpace(s[|r|..])
    ensures var r := TrimEnd(s); r == [] || !IsSpace(r[|r| - 1])
  {
    if s != [] && IsSpace(s[|s| - 1]) {
      TrimEndShape(s[..|s| - 1]);
      var r := TrimEnd(s[..|s| - 1]);
      assert s[|r|..] == s[..|s| - 1][|r|..] + [s[|s| - 1]];
    }
  }

  /**
   * What `strip()` keeps is an infix with no space at either end, and what it removes is
   * spaces only: leading ones, then trailing ones.
   */
  lemma StripShape(s: string)
    ensures var r := Strip(s); r == [] || (!IsSpace(r[0]) && !IsSpace(r[|r| - 1]))
    ensures var t := TrimStart(s); var r := Strip(s);
      |r| <= |t| && r == t[..|r|] && t == s[|s| - |t|..] && AllSpace(s[..|s| - |t|]) && AllSpace(t[|r|..])
    ensures var t := TrimStart(s); t == [] || !IsSpace(t[0])
  {
    TrimStartShape(s);
    var t := TrimStart(s);
    TrimEndShape(t);
    var r := TrimEnd(t);
    if r != [] {
      assert r[0] == t[0];
    }
  }

  /** A string is blank exactly when it is made of spaces only: `not s.strip()`. */
  lemma StripEmptyIffAllSpace(s: string)
    ensures Strip(s) == [] <==> AllSpace(s)
  {
    StripShape(s);
    var t := TrimStart(s);
    if Strip(s) == [] {
      assert t[|TrimEnd(t)|..] == t;
      assert t == [];
      assert s == s[..|s| - |t|];
    } else {
      var r := Strip(s);
      assert r[0] == t[0] == s[|s| - |t|];
      assert !IsSpace(s[|s| - |t|]);
    }
  }

  /** A string that neither starts nor ends with a space is its own strip. */
  lemma StripNoSpaceEnds(s: string)
    requires s != [] && !IsSpace(s[0]) && !IsSpace(s[|s| - 1])
    ensures Strip(s) == s
  {
    assert TrimStart(s) == s;
  }

  /** Stripping twice is stripping once. */
  lemma StripIdempotent(s: string)
    ensures Strip(Strip(s)) == Strip(s)
  {
    StripShape(s);
    var r := Strip(s);
    if r != [] {
      StripNoSpaceEnds(r);
    }
  }

  predicate IsAsciiDigit(c: char) {
    '0' <= c <= '9'
  }

  predicate AllDigits(s: string) {
    forall i | 0 <= i < |s| :: IsAsciiDigit(s[i])
  }

  /** `s.isdigit()` for ASCII text: non-empty and every character a digit. */
  predicate IsDigitString(s: string) {
    s != [] && AllDigits(s)
  }

  /** The base-10 value of a string of digits. */
  function DigitsValue(s: string): nat
    requires AllDigits(s)
  {
    if s == [] then 0 else DigitsValue(s[..|s| - 1]) * 10 + (s[|s| - 1] as int - '0' as int)
  }

  /** `s.replace(c, '')`. */
  function RemoveChar(s: string, c: char): (r: string)
    ensures |r| <= |s|
    ensures forall x :: x in r <==> x in s && x != c
    ensures c !in s ==> r == s
  {
    if s == [] then []
    else if s[0] == c then RemoveChar(s[1..], c)
    else [s[0]] + RemoveChar(s[1..], c)
  }

  lemma {:induction false} RemoveCharAppend(a: string, b: string, c: char)
    ensures RemoveChar(a + b, c) == RemoveChar(a, c) + RemoveChar(b, c)
  {
    if a == [] {
      assert a + b == b;
    } else {
      assert (a + b)[1..] == a[1..] + b;
      RemoveCharAppend(a[1..], b, c);
    }
  }

  /**
   * The body of a base-10 `int()` literal after its sign: digits, with single underscores
   * allowed between two digits.
   */
  predicate IsIntBody(s: string) {
    && |s| > 0
    && IsAsciiDigit(s[0]) && IsAsciiDigit(s[|s| - 1])
    && (forall i | 0 <= i < |s| :: IsAsciiDigit(s[i]) || s[i] == '_')
    && (forall i | 0 <= i < |s| - 1 :: !DoubleUnderscoreAt(s, i))
  }

  predicate DoubleUnderscoreAt(s: string, i: nat)
    requires i + 1 < |s|
  {
    s[i] == '_' && s[i + 1] == '_'
  }

  function BodyValue(s: string): nat
    requires IsIntBody(s)
  {
    var d := RemoveChar(s, '_');
    assert AllDigits(d) by {
      forall i | 0 <= i < |d| ensures IsAsciiDigit(d[i]) {
        assert d[i] in d;
      }
    }
    DigitsValue(d)
  }

  /** `int(s)` in base 10: `None` where Python raises `ValueError`. */
  function PyInt(s: string): Option<int> {
    IntLiteral(Strip(s))
  }

  /** An optionally signed `int()` literal with no surrounding spaces. */
  function IntLiteral(t: string): Option<int> {
    if |t| > 0 && (t[0] == '-' || t[0] == '+') then
      if IsIntBody(t[1..]) then
        var v: int := BodyValue(t[1..]);
        Some(if t[0] == '-' then -v else v)
      else None
    else if IsIntBody(t) then Some(BodyValue(t))
    else None
  }

  /** A plain run of digits is read as its decimal value. */
  lemma PyIntOfDigits(s: string)
    requires IsDigitString(s)
    ensures PyInt(s) == Some(DigitsValue(s))
  {
    DigitsHaveNoSpace(s);
    assert Strip(s) == s;
    DigitsAreIntBody(s);
    assert BodyValue(s) == DigitsValue(s);
  }

  /** A minus sign followed by a run of digits is read as the negated value. */
  lemma PyIntOfNegatedDigits(s: string)
    requires IsDigitString(s)
    ensures PyInt("-" + s) == Some(-(DigitsValue(s) as int))
  {
    var t := "-" + s;
    assert t[1..] == s;
    NegatedNoSpaceEnds(s);
    DigitsAreIntBody(s);
    assert BodyValue(s) == DigitsValue(s);
    NegativeBody(t);
  }

  lemma NegatedNoSpaceEnds(s: string)
    requires IsDigitString(s)
    ensures Strip("-" + s) == "-" + s
  {
    var t := "-" + s;
    assert t[0] == '-' && t[|t| - 1] == s[|s| - 1];
    assert IsAsciiDigit(s[|s| - 1]);
    StripNoSpaceEnds(t);
  }

  lemma NegativeBody(t: string)
    requires Strip(t) == t && |t| > 1 && t[0] == '-' && IsIntBody(t[1..])
    ensures PyInt(t) == Some(-(BodyValue(t[1..]) as int))
  {
  }

  lemma DigitsHaveNoSpace(s: string)
    requires IsDigitString(s)
    ensures !IsSpace(s[0]) && !IsSpace(s[|s| - 1])
    ensures Strip(s) == s
  {
    assert IsAsciiDigit(s[0]) && IsAsciiDigit(s[|s| - 1]);
    StripNoSpaceEnds(s);
  }

  lemma DigitsAreIntBody(s: string)
    requires IsDigitString(s)
    ensures IsIntBody(s) && '_' !in s && RemoveChar(s, '_') == s
  {
    forall i | 0 <= i < |s| ensures s[i] != '_' {
      assert IsAsciiDigit(s[i]);
    }
  }
}
