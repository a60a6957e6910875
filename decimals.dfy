/** Python's `decimal.Decimal` as the parser uses it: exact values built from strings with
    `Decimal(s)`, compared with `< 0` and `== 0`, combined with `+`, `-`, `*` and `abs`. */
module Decimals {
  import opened Wrappers
  import opened Text

  /** A `decimal.Decimal`, as the exact rational number it denotes. */
  type Decimal = real

  /** The product of two Decimals, kept behind a name so that a proof about values built from
      a product never has to reason about multiplication. */
  function Times(a: Decimal, b: Decimal): Decimal {
    a * b
  }

  /** Python's `abs` on a Decimal. */
  function Abs(x: Decimal): (r: Decimal)
    ensures r >= 0.0
    ensures r == x || r == -x
  {
    if x < 0.0 then -x else x
  }

  /** The truth value of an `Optional[Decimal]` in a Python `if`: present and non-zero. */
  predicate Truthy(x: Option<Decimal>) {
    x.Some? && x.value != 0.0
  }

  /** The number a string of decimal digits denotes (0 for the empty string). */
  function DigitsValue(s: string): nat
    requires AllDigits(s)
    decreases |s|
  {
    if s == [] then 0 else 10 * DigitsValue(s[..|s| - 1]) + (s[|s| - 1] as int - '0' as int)
  }

  /** `m` times ten to the power `e`, one factor of ten at a time. */
  function Scale(m: real, e: int): real
    decreases if e >= 0 then e else -e
  {
    if e == 0 then m else if e > 0 then 10.0 * Scale(m, e - 1) else Scale(m, e + 1) / 10.0
  }

  /** The value of the digits `b` written after a decimal point: `0.b`. */
  function FractionValue(b: string): real
    requires AllDigits(b)
  {
    if b == [] then 0.0 else ((b[0] as int - '0' as int) as real + FractionValue(b[1..])) / 10.0
  }

  predicate IsSign(c: char) { c == '+' || c == '-' }

  predicate IsDigitOrPoint(c: char) { IsDigit(c) || c == '.' }

  predicate IsExponentMarker(c: char) { c == 'e' || c == 'E' }

  /** A character that can remain in a numeric string once it is stripped. */
  predicate IsNumericChar(c: char) { IsSign(c) || IsDigitOrPoint(c) || IsExponentMarker(c) }

  /** The exponent part `[eE][+-]?digits` of a numeric string, or 0 when there is none. */
  function ParseExponent(s: string): (r: Option<int>)
    ensures s == [] ==> r == Some(0)
    ensures r.Some? ==> AllChars(s, IsNumericChar)
  {
    if s == [] then Some(0)
    else if !IsExponentMarker(s[0]) then None
    else
      var signed := |s| > 1 && IsSign(s[1]);
      var digits := if signed then s[2..] else s[1..];
      if |digits| > 0 && AllDigits(digits) then
        Some(if signed && s[1] == '-' then -(DigitsValue(digits) as int) else DigitsValue(digits))
      else None
  }

  /** `Decimal(s)`: `None` where Python raises `decimal.InvalidOperation`. Accepted are surrounding
      whitespace, an optional sign, `digits`, `digits.`, `.digits` or `digits.digits`, and an
      optional exponent. */
  function ParseDecimal(s: string): (r: Option<Decimal>)
  {
    ParseSigned(Strip(s, IsWhitespace))
  }

  /** A stripped numeric string: an optional sign, then an unsigned number. */
  function ParseSigned(t: string): (r: Option<Decimal>)
  {
    if |t| > 0 && IsSign(t[0]) then
      (if t[0] == '-' then Negate(ParseUnsigned(t[1..])) else ParseUnsigned(t[1..]))
    else ParseUnsigned(t)
  }

  function Negate(r: Option<Decimal>): Option<Decimal> {
    if r.Some? then Some(-r.value) else None
  }

  /** A mantissa of digits and points followed by an optional exponent. */
  function ParseUnsigned(body: string): (r: Option<Decimal>)
  {
    var split := TakeWhile(body, IsDigitOrPoint);
    var m := ParseMantissa(split.0);
    var e := ParseExponent(split.1);
    if m.Some? && e.Some? then Some(Scale(m.value, e.value)) else None
  }

  /** `digits`, `digits.`, `.digits` or `digits.digits`. */
  function ParseMantissa(m: string): (r: Option<Decimal>)
  {
    var split := TakeWhile(m, IsDigit);
    var intPart := split.0;
    var fracPart := if split.1 == [] then [] else split.1[1..];
    if AllDigits(fracPart) && |intPart| + |fracPart| > 0 then Some(MantissaValue(intPart, fracPart))
    else None
  }

  /** The value a mantissa `a` or `a.b` of digit strings denotes. */
  function MantissaValue(a: string, b: string): real
    requires AllDigits(a) && AllDigits(b)
  {
    DigitsValue(a) as real + FractionValue(b)
  }

  lemma ScaleByZero(v: real)
    ensures Scale(v, 0) == v
  {
  }

  /** Without an exponent, an unsigned number is its mantissa. */
  lemma ParseUnsignedOfMantissa(m: string)
    requires AllChars(m, IsDigitOrPoint)
    ensures ParseUnsigned(m) == ParseMantissa(m)
  {
    assert m + [] == m;
    TakeWhileOfConcat(m, [], IsDigitOrPoint);
    if ParseMantissa(m).Some? {
      ScaleByZero(ParseMantissa(m).value);
    }
  }

  /** A string that neither starts nor ends with whitespace is parsed as it stands. */
  lemma ParseDecimalOfStripped(t: string)
    requires t == [] || (!IsWhitespace(t[0]) && !IsWhitespace(t[|t| - 1]))
    ensures ParseDecimal(t) == ParseSigned(t)
  {
    StripUnchanged(t, IsWhitespace);
  }

  lemma ParseSignedOfUnsigned(m: string)
    requires m != [] && IsDigit(m[0])
    ensures ParseSigned(m) == ParseUnsigned(m)
  {
  }

  /** A leading minus negates the number that follows it. */
  lemma ParseSignedOfNegated(m: string)
    requires m != [] && IsDigit(m[0])
    ensures ParseSigned("-" + m) == Negate(ParseUnsigned(m))
  {
    assert ("-" + m)[1..] == m;
  }

  /** A string without surrounding whitespace, sign or exponent is parsed by its mantissa alone. */
  lemma ParseDecimalOfMantissa(m: string)
    requires m != [] && IsDigit(m[0]) && IsDigit(m[|m| - 1]) && AllChars(m, IsDigitOrPoint)
    ensures ParseDecimal(m) == ParseMantissa(m)
  {
    ParseUnsignedOfMantissa(m);
    ParseDecimalOfStripped(m);
    ParseSignedOfUnsigned(m);
  }

  /** The same mantissa after a minus sign denotes the negated value. */
  lemma ParseDecimalOfNegatedMantissa(m: string)
    requires m != [] && IsDigit(m[0]) && IsDigit(m[|m| - 1]) && AllChars(m, IsDigitOrPoint)
    ensures ParseDecimal("-" + m) == Negate(ParseMantissa(m))
  {
    ParseUnsignedOfMantissa(m);
    var s := "-" + m;
    assert s[|s| - 1] == m[|m| - 1];
    ParseDecimalOfStripped(s);
    ParseSignedOfNegated(m);
  }

  lemma DigitsAreDigitOrPoint(a: string)
    requires AllDigits(a)
    ensures AllChars(a, IsDigitOrPoint)
  {
    forall i | 0 <= i < |a| ensures IsDigitOrPoint(a[i]) {
      assert IsDigit(a[i]);
    }
  }

  /** A digit string is a mantissa without a fraction. */
  lemma IntegerMantissa(a: string)
    requires |a| > 0 && AllDigits(a)
    ensures ParseMantissa(a) == Some(DigitsValue(a) as real)
  {
    assert a + [] == a;
    TakeWhileOfConcat(a, [], IsDigit);
  }

  /** A digit string denotes its value. */
  lemma ParseInteger(a: string)
    requires |a| > 0 && AllDigits(a)
    ensures ParseDecimal(a) == Some(DigitsValue(a) as real)
  {
    DigitsAreDigitOrPoint(a);
    assert IsDigit(a[0]) && IsDigit(a[|a| - 1]);
    IntegerMantissa(a);
    ParseDecimalOfMantissa(a);
  }

  /** `a.b` is a mantissa with integer digits `a` and fraction digits `b`. */
  lemma FixedPointMantissa(a: string, b: string)
    requires AllDigits(a) && AllDigits(b) && |a| + |b| > 0
    ensures AllChars(a + "." + b, IsDigitOrPoint)
    ensures ParseMantissa(a + "." + b) == Some(MantissaValue(a, b))
  {
    var m := a + "." + b;
    assert m == a + ("." + b);
    forall i | 0 <= i < |m| ensures IsDigitOrPoint(m[i]) {
      if i < |a| {
        assert m[i] == a[i];
      } else if i > |a| {
        assert m[i] == b[i - |a| - 1];
      }
    }
    TakeWhileOfConcat(a, "." + b, IsDigit);
    assert ("." + b)[1..] == b;
  }

  /** `digits.digits` denotes the value of its integer and fraction digits. */
  lemma ParseFixedPoint(a: string, b: string)
    requires |a| > 0 && |b| > 0 && AllDigits(a) && AllDigits(b)
    ensures ParseDecimal(a + "." + b) == Some(MantissaValue(a, b))
  {
    var m := a + "." + b;
    FixedPointMantissa(a, b);
    assert m[0] == a[0] && IsDigit(a[0]);
    assert m[|m| - 1] == b[|b| - 1] && IsDigit(b[|b| - 1]);
    ParseDecimalOfMantissa(m);
  }

  /** A character that can occur anywhere in a string `Decimal` accepts. */
  predicate IsDecimalChar(c: char) { IsWhitespace(c) || IsNumericChar(c) }

  lemma UnsignedChars(body: string)
    requires ParseUnsigned(body).Some?
    ensures AllChars(body, IsNumericChar)
  {
    var split := TakeWhile(body, IsDigitOrPoint);
    assert ParseExponent(split.1).Some?;
    forall k | 0 <= k < |body| ensures IsNumericChar(body[k]) {
      if k < |split.0| {
        assert body[k] == split.0[k];
      } else {
        assert body[k] == split.1[k - |split.0|];
      }
    }
  }

  lemma SignedBody(t: string)
    requires |t| > 0 && IsSign(t[0]) && ParseSigned(t).Some?
    ensures ParseUnsigned(t[1..]).Some?
  {
    if t[0] == '-' {
      assert Negate(ParseUnsigned(t[1..])).Some?;
    }
  }

  lemma SignedChars(t: string)
    requires ParseSigned(t).Some?
    ensures AllChars(t, IsNumericChar)
  {
    if |t| > 0 && IsSign(t[0]) {
      SignedBody(t);
      UnsignedChars(t[1..]);
      SignThenNumeric(t);
    } else {
      assert ParseUnsigned(t).Some?;
      UnsignedChars(t);
    }
  }

  lemma SignThenNumeric(t: string)
    requires |t| > 0 && IsSign(t[0]) && AllChars(t[1..], IsNumericChar)
    ensures AllChars(t, IsNumericChar)
  {
    forall k | 0 <= k < |t| ensures IsNumericChar(t[k]) {
      if k > 0 {
        assert t[k] == t[1..][k - 1];
      }
    }
  }

  /** Every character of a string `Decimal` accepts is whitespace or numeric. */
  lemma ParseDecimalChars(s: string)
    requires ParseDecimal(s).Some?
    ensures AllChars(s, IsDecimalChar)
  {
    var t := Strip(s, IsWhitespace);
    SignedChars(t);
    var i :| IsTrimmedAt(s, t, IsWhitespace, i);
    forall k | 0 <= k < |s| ensures IsDecimalChar(s[k]) {
      if k < i {
        assert s[k] == s[..i][k];
      } else if k < i + |t| {
        assert s[k] == t[k - i];
      } else {
        assert s[k] == s[i + |t|..][k - i - |t|];
      }
    }
  }

  /** Digit grouping is not part of the numeric syntax: `Decimal` raises on a comma or a
      vertical bar, which is why the parser removes commas before converting. */
  lemma ParseDecimalRejectsGrouping(s: string)
    requires '|' in s || ',' in s
    ensures ParseDecimal(s) == None
  {
    GroupingIsNotDecimal(s);
    if ParseDecimal(s).Some? {
      ParseDecimalChars(s);
      assert false;
    }
  }

  lemma GroupingIsNotDecimal(s: string)
    requires '|' in s || ',' in s
    ensures !AllChars(s, IsDecimalChar)
  {
    var k :| 0 <= k < |s| && (s[k] == '|' || s[k] == ',');
    assert !IsDecimalChar(s[k]);
  }
}
