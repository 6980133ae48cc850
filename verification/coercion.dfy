/**
 * PHP's coercive typing for scalar parameters and return types, which applies in
 * every file of the library that does not declare `strict_types`: an `int`,
 * `float`, `string` or `bool` declaration converts a scalar of another type
 * instead of throwing a `TypeError`.
 *
 * Strings are read as numbers the way `is_numeric_string_ex` reads them:
 * optional whitespace, an optional sign, digits with an optional fraction and
 * exponent, optional whitespace. A string with other characters after a number
 * is leading-numeric: a parameter accepts it with a warning. Floats are exact
 * reals here, so a decimal is not rounded to the nearest double.
 */
module Coercion {
  import opened Wrappers
  import opened Php

  /** The whitespace a numeric string may start and end with: " \t\n\r\v\f". */
  predicate IsNumericSpace(c: char) {
    c == ' ' || c == '\t' || c == '\n' || c == '\r' || c == '\U{000B}' || c == '\U{000C}'
  }

  /** The end of the run of numeric whitespace that starts at `i`. */
  function SpaceEnd(s: string, i: nat): (j: nat)
    requires i <= |s|
    ensures i <= j <= |s| && (j == |s| || !IsNumericSpace(s[j]))
    ensures forall k :: i <= k < j ==> IsNumericSpace(s[k])
    decreases |s| - i
  {
    if i < |s| && IsNumericSpace(s[i]) then SpaceEnd(s, i + 1) else i
  }

  /** A number read from a string: an integer when it has integer form and fits in 64 bits. */
  datatype Number = IntNum(i: int) | FloatNum(r: real)

  /** A string read as a number: the number, and whether something other than whitespace follows it. */
  datatype Numeric = Numeric(n: Number, trailing: bool)

  function Pow10(e: nat): (p: nat)
    ensures p >= 1
  {
    if e == 0 then 1 else 10 * Pow10(e - 1)
  }

  /** `x * 10^e` for an exponent of either sign. */
  function Scale(x: real, e: int): real {
    if e >= 0 then x * Pow10(e) as real else x / Pow10(-e) as real
  }

  /** The value of a decimal `digits.fraction` with an exponent. */
  function DecimalReal(digits: string, fraction: string, exponent: int): real
    requires AllDigits(digits) && AllDigits(fraction)
  {
    Scale(Decimal(digits) as real + Decimal(fraction) as real / Pow10(|fraction|) as real, exponent)
  }

  /** Whether the exponent marker `e` or `E` at `i` is followed by an optional sign and a digit. */
  predicate ExponentAt(s: string, i: nat) {
    var d := if i + 1 < |s| && (s[i + 1] == '+' || s[i + 1] == '-') then i + 2 else i + 1;
    i < |s| && (s[i] == 'e' || s[i] == 'E') && d < |s| && IsDigit(s[d])
  }

  /**
   * `is_numeric_string_ex` with errors allowed: the number `s` starts with, if
   * any. There must be a digit before or after the decimal point; a number with
   * a point or an exponent is a float, and so is an integer outside 64 bits.
   */
  function ReadNumeric(s: string): Option<Numeric> {
    var i := SpaceEnd(s, 0);
    var signed := i < |s| && (s[i] == '+' || s[i] == '-');
    var m := if signed then i + 1 else i;
    var intEnd := DigitsEnd(s, m);
    var dot := intEnd < |s| && s[intEnd] == '.';
    var fracEnd := if dot then DigitsEnd(s, intEnd + 1) else intEnd;
    if intEnd == m && (!dot || fracEnd == intEnd + 1) then None
    else
      var exp := ExponentAt(s, fracEnd);
      var expSigned := exp && (s[fracEnd + 1] == '+' || s[fracEnd + 1] == '-');
      var expStart := if expSigned then fracEnd + 2 else fracEnd + 1;
      var end := if exp then DigitsEnd(s, expStart) else fracEnd;
      var trailing := SpaceEnd(s, end) < |s|;
      var negative := signed && s[i] == '-';
      DigitRun(s, m, intEnd);
      if !dot && !exp then
        var magnitude: int := Decimal(s[m..intEnd]);
        Some(Numeric(IntReading(if negative then -magnitude else magnitude), trailing))
      else
        var fraction := FractionDigits(s, intEnd, fracEnd);
        var e: int := if exp then DigitRun(s, expStart, end); Decimal(s[expStart..end]) else 0;
        var magnitude := DecimalReal(s[m..intEnd], fraction, if expSigned && s[fracEnd + 1] == '-' then -e else e);
        Some(Numeric(FloatNum(if negative then -magnitude else magnitude), trailing))
  }

  /** A string of digits denoting `n`: an integer within 64 bits, and a float beyond them. */
  function IntReading(n: int): (r: Number)
    ensures r.IntNum? <==> IntMin <= n <= IntMax
    ensures r.IntNum? ==> r.i == n
    ensures r.FloatNum? ==> r.r == n as real
  {
    if IntMin <= n <= IntMax then IntNum(n) else FloatNum(n as real)
  }

  /** The digits between a decimal point at `intEnd` and `fracEnd`; none without a point. */
  function FractionDigits(s: string, intEnd: nat, fracEnd: nat): (f: string)
    requires intEnd <= fracEnd <= |s|
    requires fracEnd > intEnd ==> fracEnd <= DigitsEnd(s, intEnd + 1)
    ensures AllDigits(f) && |f| == if fracEnd > intEnd then fracEnd - intEnd - 1 else 0
  {
    if fracEnd > intEnd then DigitRun(s, intEnd + 1, fracEnd); s[intEnd + 1..fracEnd] else ""
  }

  /** Truncation toward zero, as a cast of a float to int does it. */
  function Truncate(x: real): (t: int)
    ensures x >= 0.0 ==> t as real <= x < t as real + 1.0
    ensures x < 0.0 ==> t as real - 1.0 < x <= t as real
  {
    if x >= 0.0 then x.Floor else -((-x).Floor)
  }

  /** Whether a float can be converted to a 64-bit integer: `-2^63 <= x < 2^63`. */
  predicate FitsInt(x: real) {
    IntMin as real <= x < (IntMax + 1) as real
  }

  /** A float converted for an `int` declaration: truncated, or refused outside the 64-bit range. */
  function FloatToInt(x: real): (r: Option<int>)
    ensures r.Some? <==> FitsInt(x)
    ensures r.Some? ==> Truncate(x) == r.value
  {
    if FitsInt(x) then Some(Truncate(x)) else None
  }

  /**
   * What an `int` declaration makes of a value: an int stays, a bool is 0 or
   * 1, a float or a (leading-)numeric string is truncated; null, arrays,
   * objects and non-numeric strings are refused.
   */
  function ToInt(v: Value): (r: Option<int>)
    ensures v.Int? ==> r == Some(v.i)
    ensures v.Bool? ==> r == Some(if v.b then 1 else 0)
    ensures v.Null? || v.Arr? || v.Obj? ==> r.None?
    ensures v.Str? ==> (r.Some? ==> ReadNumeric(v.s).Some?)
  {
    match v
    case Int(i) => Some(i)
    case Bool(b) => Some(if b then 1 else 0)
    case Float(x) => FloatToInt(x)
    case Str(s) =>
      (match ReadNumeric(s)
       case Some(Numeric(IntNum(i), _)) => Some(i)
       case Some(Numeric(FloatNum(x), _)) => FloatToInt(x)
       case None => None)
    case _ => None
  }

  /** What a `float` declaration makes of a value: ints, bools and (leading-)numeric strings convert. */
  function ToFloat(v: Value): (r: Option<real>)
    ensures v.Float? ==> r == Some(v.r)
    ensures v.Int? ==> r == Some(v.i as real)
    ensures v.Bool? ==> r == Some(if v.b then 1.0 else 0.0)
    ensures v.Null? || v.Arr? || v.Obj? ==> r.None?
    ensures v.Str? ==> (r.Some? <==> ReadNumeric(v.s).Some?)
  {
    match v
    case Float(x) => Some(x)
    case Int(i) => Some(i as real)
    case Bool(b) => Some(if b then 1.0 else 0.0)
    case Str(s) =>
      (match ReadNumeric(s)
       case Some(Numeric(IntNum(i), _)) => Some(i as real)
       case Some(Numeric(FloatNum(x), _)) => Some(x)
       case None => None)
    case _ => None
  }

  /**
   * What a `string` declaration makes of a value: ints and bools print,
   * `true` as `1` and `false` as the empty string, floats print as
   * `floatText` does (their text depends on the `precision` setting), and an
   * object with `__toString` gives its text.
   */
  function ToStr(v: Value, floatText: real -> string): (r: Option<string>)
    ensures v.Str? ==> r == Some(v.s)
    ensures v.Int? ==> r == Some(IntText(v.i))
    ensures v.Bool? ==> r == Some(if v.b then "1" else "")
    ensures v.Null? || v.Arr? ==> r.None?
    ensures v.Obj? ==> (r.Some? <==> v.cls.StringableClass?)
  {
    match v
    case Str(s) => Some(s)
    case Int(i) => Some(IntText(i))
    case Float(x) => Some(floatText(x))
    case Bool(b) => Some(if b then "1" else "")
    case Obj(_, StringableClass(text)) => Some(text)
    case _ => None
  }

  /** What a `bool` declaration makes of a value: any scalar converts by its truthiness. */
  function ToBool(v: Value): (r: Option<bool>)
    ensures r.Some? <==> v.Bool? || v.Int? || v.Float? || v.Str?
    ensures r.Some? ==> r.value == Truthy(v)
  {
    if v.Bool? || v.Int? || v.Float? || v.Str? then Some(Truthy(v)) else None
  }

  // ---------------------------------------------------------------------------
  // Reading back what was printed

  /**
   * The text of a 64-bit integer reads back as that integer, with nothing
   * after it: `(int)(string)$n === $n`.
   */
  lemma IntTextReadsBack(n: int)
    requires IntMin <= n <= IntMax
    ensures ReadNumeric(IntText(n)) == Some(Numeric(IntNum(n), false))
  {
    var s := IntText(n);
    var magnitude := if n < 0 then -n else n;
    var m := if n < 0 then 1 else 0;
    NatTextDecimal(magnitude);
    assert s[m..] == NatText(magnitude);
    ReadsSignedDigits(s, m);
  }

  /**
   * A string that is an optional minus sign and then only digits reads as the
   * integer they denote, with nothing after it.
   */
  lemma ReadsSignedDigits(s: string, m: nat)
    requires m <= 1 && m < |s| && (m == 1 ==> s[0] == '-')
    requires forall k :: m <= k < |s| ==> IsDigit(s[k])
    ensures var v: int := if m == 1 then -(Decimal(s[1..]) as int) else Decimal(s);
      ReadNumeric(s) == Some(Numeric(IntReading(v), false))
  {
    assert !IsNumericSpace(s[0]);
    assert SpaceEnd(s, 0) == 0;
    DigitsEndAt(s, m, |s|);
    ReadsWholeInteger(s, m);
    if m == 0 {
      assert s[0..] == s;
    }
  }

  /** A string that is an optional sign and then digits to its end reads as one integer, with nothing after it. */
  lemma ReadsWholeInteger(s: string, m: nat)
    requires m <= 1 && m < |s| && SpaceEnd(s, 0) == 0
    requires m == 1 <==> s[0] == '+' || s[0] == '-'
    requires DigitsEnd(s, m) == |s|
    ensures m == 0 ==> ReadNumeric(s) == Some(Numeric(IntReading(Decimal(s[0..])), false))
    ensures m == 1 && s[0] == '-' ==> ReadNumeric(s) == Some(Numeric(IntReading(-(Decimal(s[1..]) as int)), false))
    ensures m == 1 && s[0] == '+' ==> ReadNumeric(s) == Some(Numeric(IntReading(Decimal(s[1..])), false))
  {
    assert !ExponentAt(s, |s|);
    assert SpaceEnd(s, |s|) == |s|;
    assert s[m..|s|] == s[m..];
  }

  /** An `int` declaration takes the text of an integer back to the integer. */
  lemma ToIntOfIntText(n: int)
    requires IntMin <= n <= IntMax
    ensures ToInt(Str(IntText(n))) == Some(n)
    ensures ToFloat(Str(IntText(n))) == Some(n as real)
  {
    IntTextReadsBack(n);
  }

  /** An `int` declaration reads what a `string` declaration makes of an integer. */
  lemma IntStringRoundTrip(n: int, floatText: real -> string)
    requires IntMin <= n <= IntMax
    ensures ToStr(Int(n), floatText).Some? && ToInt(Str(ToStr(Int(n), floatText).value)) == Some(n)
  {
    ToIntOfIntText(n);
  }

  // ---------------------------------------------------------------------------
  // Examples

  /** Example: `'5'` and `' 42 '` read as integers; surrounding whitespace is allowed. */
  lemma IntegerStrings()
    ensures ToInt(Str("5")) == Some(5)
    ensures ReadNumeric(" 42 ") == Some(Numeric(IntNum(42), false))
  {
    ToIntOfIntText(5);
    assert IntText(5) == "5";
    var s := " 42 ";
    assert SpaceEnd(s, 0) == 1 by {
      assert SpaceEnd(s, 1) == 1;
    }
    DigitsEndAt(s, 1, 3);
    assert s[1..3] == "42";
    assert Decimal("42") == 42 by {
      assert "42"[..1] == "4";
      assert Decimal("4") == 4 by { assert "4"[..0] == ""; }
    }
    assert SpaceEnd(s, 3) == 4;
  }

  /** Example: `'1.5'` reads as a float; an `int` declaration truncates it to 1. */
  lemma FractionString()
    ensures ReadNumeric("1.5") == Some(Numeric(FloatNum(1.5), false))
    ensures ToInt(Str("1.5")) == Some(1)
  {
    var s := "1.5";
    assert SpaceEnd(s, 0) == 0;
    DigitsEndAt(s, 0, 1);
    DigitsEndAt(s, 2, 3);
    assert s[0..1] == "1" && s[2..3] == "5";
    assert Decimal("1") == 1 by { assert "1"[..0] == ""; }
    assert Decimal("5") == 5 by { assert "5"[..0] == ""; }
    assert !ExponentAt(s, 3);
  }

  /** Example: `'12abc'` is leading-numeric: it reads as 12, with something after it. */
  lemma LeadingNumericString()
    ensures ReadNumeric("12abc") == Some(Numeric(IntNum(12), true))
    ensures ToInt(Str("12abc")) == Some(12)
  {
    var s := "12abc";
    assert SpaceEnd(s, 0) == 0;
    DigitsEndAt(s, 0, 2);
    assert s[0..2] == "12";
    assert Decimal("12") == 12 by {
      assert "12"[..1] == "1";
      assert Decimal("1") == 1 by { assert "1"[..0] == ""; }
    }
    assert !ExponentAt(s, 2);
    assert SpaceEnd(s, 2) == 2;
  }

  /** Example: `'abc'`, `''` and `'.'` are not numeric, and numeric declarations refuse `'abc'`. */
  lemma NonNumericStrings()
    ensures ReadNumeric("abc") == None && ToInt(Str("abc")) == None && ToFloat(Str("abc")) == None
    ensures ReadNumeric("") == None && ReadNumeric(".") == None
  {
    assert SpaceEnd("abc", 0) == 0;
    DigitsEndAt("abc", 0, 0);
    assert SpaceEnd(".", 0) == 0;
    DigitsEndAt(".", 0, 0);
    DigitsEndAt(".", 1, 1);
  }

  // ---------------------------------------------------------------------------
  // Array offsets

  /**
   * The key `$array[$offset]` and `isset($array[$offset])` look up: a string
   * key is canonicalised, a bool reads key 0 or 1, a float is truncated (with a
   * deprecation notice when it has a fraction), and null reads key `''`. Arrays
   * and objects are illegal offsets and throw a `TypeError`. A float outside
   * the 64-bit range has no defined key; it is refused too.
   */
  function OffsetKey(v: Value): (r: Result<Key, Error>)
    ensures r.Failure? <==> v.Arr? || v.Obj? || (v.Float? && !FitsInt(v.r))
    ensures v.Str? ==> r == Success(ArrayKey(v.s))
    ensures v.Int? ==> r == Success(IntKey(v.i))
    ensures v.Bool? ==> r == Success(IntKey(if v.b then 1 else 0))
    ensures v.Null? ==> r == Success(StrKey(""))
    ensures v.Float? && FitsInt(v.r) ==> r == Success(IntKey(Truncate(v.r)))
  {
    match v
    case Null => Success(StrKey(""))
    case Bool(b) => Success(IntKey(if b then 1 else 0))
    case Int(n) => Success(IntKey(n))
    case Float(x) => if FitsInt(x) then Success(IntKey(Truncate(x))) else Failure(TypeError("Illegal offset type"))
    case Str(t) => Success(ArrayKey(t))
    case _ => Failure(TypeError("Illegal offset type"))
  }

  /** The text of a 64-bit integer, as an offset, reads the same key as the integer. */
  lemma DecimalStringOffset(n: int)
    requires IntMin <= n <= IntMax
    ensures OffsetKey(Str(IntText(n))) == OffsetKey(Int(n)) == Success(IntKey(n))
  {
    IntTextKey(n);
  }

  /** A key a PHP array can hold, given back as an offset, reads that very key. */
  lemma KeyAsOffset(k: Key)
    requires k.IntKey? ==> IntMin <= k.i <= IntMax
    requires k.StrKey? ==> ArrayKey(k.s) == k
    ensures OffsetKey(if k.IntKey? then Int(k.i) else Str(k.s)) == Success(k)
  {
  }

  /** Example: `'5'` reads key 5, `'05'` stays a string, `true` reads 1, `1.7` reads 1, null reads `''`, and `[]` throws. */
  lemma OffsetExamples()
    ensures OffsetKey(Str("5")) == Success(IntKey(5))
    ensures OffsetKey(Str("05")) == Success(StrKey("05"))
    ensures OffsetKey(Bool(true)) == Success(IntKey(1))
    ensures OffsetKey(Float(1.7)) == Success(IntKey(1))
    ensures OffsetKey(Null) == Success(StrKey(""))
    ensures OffsetKey(Arr([])).Failure?
  {
  }
}
