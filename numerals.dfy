/**
 * Python's digit classes and `int()` on text. `str.isdigit()` accepts every
 * character with a digit value (superscripts and subscripts included), while
 * `int()` accepts only decimal digits (Unicode category Nd). The Unicode tables
 * are abridged to the blocks listed below.
 */
module Numerals {
  import opened Wrappers
  import opened Text

  /** The first code point of the decimal-digit block holding `c`, if any. */
  function DecimalBlock(c: char): (z: Option<char>)
    ensures z.Some? ==> z.value <= c && c as int - z.value as int < 10
  {
    if '0' <= c <= '9' then Some('0')
    else if '\U{0660}' <= c <= '\U{0669}' then Some('\U{0660}')      // Arabic-Indic
    else if '\U{06f0}' <= c <= '\U{06f9}' then Some('\U{06f0}')      // Extended Arabic-Indic
    else if '\U{0966}' <= c <= '\U{096f}' then Some('\U{0966}')      // Devanagari
    else if '\U{ff10}' <= c <= '\U{ff19}' then Some('\U{ff10}')      // Fullwidth
    else None
  }

  /** `c.isdecimal()`. */
  predicate IsDecimalChar(c: char) {
    DecimalBlock(c).Some?
  }

  function DecimalCharValue(c: char): (d: nat)
    requires IsDecimalChar(c)
    ensures d < 10
    ensures IsAsciiDigit(c) ==> d == DigitValue(c)
  {
    c as int - DecimalBlock(c).value as int
  }

  /** Superscript and subscript digits: `isdigit()` holds, `isdecimal()` does not. */
  predicate IsScriptDigit(c: char) {
    c == '\U{00b2}' || c == '\U{00b3}' || c == '\U{00b9}' || c == '\U{2070}'
    || '\U{2074}' <= c <= '\U{2079}' || '\U{2080}' <= c <= '\U{2089}'
  }

  /** `c.isdigit()`. */
  predicate IsDigitChar(c: char) {
    IsDecimalChar(c) || IsScriptDigit(c)
  }

  /** `s.isdigit()`: non-empty and every character has a digit value. */
  predicate IsDigitString(s: string) {
    |s| > 0 && forall i :: 0 <= i < |s| ==> IsDigitChar(s[i])
  }

  /** `s.isdecimal()`. Every decimal string also passes `isdigit()`. */
  predicate IsDecimalString(s: string)
    ensures IsDecimalString(s) ==> IsDigitString(s)
  {
    |s| > 0 && forall i :: 0 <= i < |s| ==> IsDecimalChar(s[i])
  }

  /** The value of a string of decimal digits, most significant first. */
  function DecimalStringValue(s: string): nat
    requires forall i :: 0 <= i < |s| ==> IsDecimalChar(s[i])
  {
    if s == [] then 0 else DecimalStringValue(s[..|s| - 1]) * 10 + DecimalCharValue(s[|s| - 1])
  }

  /** On ASCII digits the Unicode value is the usual decimal value. */
  lemma {:induction false} AsciiDecimalValue(s: string)
    requires forall i :: 0 <= i < |s| ==> IsAsciiDigit(s[i])
    ensures forall i :: 0 <= i < |s| ==> IsDecimalChar(s[i])
    ensures DecimalStringValue(s) == DecimalValue(s)
  {
    if s != [] {
      AsciiDecimalValue(s[..|s| - 1]);
    }
  }

  lemma AsciiDigitsDecimal(s: string)
    ensures IsDigits(s) ==> IsDecimalString(s) && DecimalStringValue(s) == DecimalValue(s)
  {
    if IsDigits(s) {
      AsciiDecimalValue(s);
    }
  }

  /** The digits of an `int()` literal: decimal digits with single underscores between them. */
  predicate IsDigitGroups(s: string) {
    && |s| > 0
    && IsDecimalChar(s[0]) && IsDecimalChar(s[|s| - 1])
    && (forall i :: 0 <= i < |s| ==> IsDecimalChar(s[i]) || s[i] == '_')
    && (forall i :: 0 <= i < |s| - 1 ==> !(s[i] == '_' && s[i + 1] == '_'))
  }

  function DropUnderscores(s: string): (r: string)
    ensures |r| <= |s|
    ensures forall i :: 0 <= i < |r| ==> r[i] != '_'
    ensures (forall i :: 0 <= i < |s| ==> s[i] != '_') ==> r == s
  {
    if s == [] then [] else (if s[0] == '_' then [] else [s[0]]) + DropUnderscores(s[1..])
  }

  lemma {:induction false} DropUnderscoresDecimal(s: string)
    requires forall i :: 0 <= i < |s| ==> IsDecimalChar(s[i]) || s[i] == '_'
    ensures forall i :: 0 <= i < |DropUnderscores(s)| ==> IsDecimalChar(DropUnderscores(s)[i])
  {
    if s != [] {
      DropUnderscoresDecimal(s[1..]);
    }
  }

  /** The magnitude of an unsigned `int()` literal, or `None` for `ValueError`. */
  function ParseMagnitude(t: string): (r: Option<nat>)
    ensures r.Some? <==> IsDigitGroups(t)
  {
    if IsDigitGroups(t) then
      DropUnderscoresDecimal(t);
      Some(DecimalStringValue(DropUnderscores(t)))
    else None
  }

  /**
   * `int(s)` for a string: surrounding whitespace is ignored, one optional sign,
   * then the digits; `None` stands for the `ValueError` it raises otherwise.
   */
  function ParseInt(s: string): Option<int> {
    ParseSigned(Strip(s))
  }

  /** An `int()` literal after the whitespace is stripped: an optional sign, then digit groups. */
  function ParseSigned(t: string): Option<int> {
    if t == [] || (t[0] != '+' && t[0] != '-') then
      match ParseMagnitude(t)
      case None => None
      case Some(m) => Some(m as int)
    else
      match ParseMagnitude(t[1..])
      case None => None
      case Some(m) => Some(if t[0] == '-' then 0 - m else m as int)
  }

  /** A string that neither starts nor ends with whitespace is its own `strip()`. */
  lemma StripUnpadded(s: string)
    requires |s| > 0 && !IsSpace(s[0]) && !IsSpace(s[|s| - 1])
    ensures Strip(s) == s
  {
    assert StripLeft(s) == s;
  }

  lemma StripDigits(s: string)
    requires IsDigits(s)
    ensures Strip(s) == s
  {
    assert !IsSpace(s[0]) && !IsSpace(s[|s| - 1]);
    StripUnpadded(s);
  }

  /** A non-empty run of ASCII digits is an `int()` literal with its decimal value. */
  lemma AsciiMagnitude(s: string)
    requires IsDigits(s)
    ensures ParseMagnitude(s) == Some(DecimalValue(s))
  {
    AsciiDecimalValue(s);
    assert forall i :: 0 <= i < |s| ==> s[i] != '_';
    assert IsDigitGroups(s);
    assert DropUnderscores(s) == s;
  }

  /** `int(str(n)) == n` through the full `int()` parser. */
  lemma ParseIntRoundTrip(n: nat)
    ensures ParseInt(NatToString(n)) == Some(n)
  {
    var s := NatToString(n);
    StripDigits(s);
    AsciiMagnitude(s);
    NatToStringRoundTrip(n);
    assert s[0] != '+' && s[0] != '-';
  }

  /** `int(s) == -n` for `s == "-" + str(n)`. */
  lemma ParseIntNegative(n: nat, s: string)
    requires s == "-" + NatToString(n)
    ensures ParseInt(s) == Some(0 - n as int)
  {
    var d := NatToString(n);
    assert s[0] == '-' && s[|s| - 1] == d[|d| - 1];
    assert !IsSpace(d[|d| - 1]);
    StripUnpadded(s);
    assert s[1..] == d;
    AsciiMagnitude(d);
    NatToStringRoundTrip(n);
    assert ParseMagnitude(s[1..]) == Some(n);
    NegativeSign(s);
  }

  /** A leading `-` negates the magnitude that follows it. */
  lemma NegativeSign(t: string)
    requires |t| > 0 && t[0] == '-' && ParseMagnitude(t[1..]).Some?
    ensures ParseSigned(t) == Some(0 - ParseMagnitude(t[1..]).value as int)
  {
  }

  /** A string `isdigit()` accepts is one `int()` accepts exactly when it `isdecimal()`. */
  lemma DigitStringParses(s: string)
    requires IsDigitString(s)
    ensures ParseInt(s).Some? <==> IsDecimalString(s)
    ensures IsDecimalString(s) ==> ParseInt(s) == Some(DecimalStringValue(s))
  {
    assert !IsSpace(s[0]) && !IsSpace(s[|s| - 1]);
    StripUnpadded(s);
    assert s[0] != '+' && s[0] != '-';
    assert forall i :: 0 <= i < |s| ==> s[i] != '_';
    assert DropUnderscores(s) == s;
  }

  /** Python's `str()` of an integer. */
  function IntToString(i: int): (r: string)
    ensures |r| > 0
  {
    if i < 0 then "-" + NatToString(0 - i) else NatToString(i)
  }

  /** `int(str(i)) == i` for every integer. */
  lemma ParseIntToString(i: int)
    ensures ParseInt(IntToString(i)) == Some(i)
  {
    if i < 0 {
      NegativeToString(i);
    } else {
      ParseIntRoundTrip(i);
    }
  }

  lemma NegativeToString(i: int)
    requires i < 0
    ensures ParseInt(IntToString(i)) == Some(i)
  {
    var n: nat := 0 - i;
    assert IntToString(i) == "-" + NatToString(n);
    ParseIntNegative(n, IntToString(i));
  }
}
