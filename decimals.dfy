/** Exact decimal numbers as Python's `decimal.Decimal` holds them, and the
    coercion `Decimal(value)` that the position's quantity setter applies. */
module Decimals {
  import opened Results
  import opened Text

  /** A finite Decimal: its value is (-1)^negative * coefficient * 10^exponent.
      The representation is kept, not only the value: "3.14" and "3.140" are
      different Decimals of equal value. */
  datatype Decimal = Decimal(negative: bool, coefficient: nat, exponent: int)

  /** The inputs a quantity is assigned from (floats are not modelled):
      an int, a string, a Decimal, a list or tuple `(sign, digits, exponent)`
      of ints, a list or tuple whose length is not three, and `OtherValue`
      for None, a dict or any other object. */
  datatype Number =
    | IntNumber(i: int)
    | StrNumber(s: string)
    | DecNumber(d: Decimal)
    | TupleNumber(sign: int, digits: seq<int>, exponent: int)
    | WrongSizeTuple
    | OtherValue

  function Pow10(e: nat): (p: nat)
    ensures p >= 1
  {
    if e == 0 then 1 else 10 * Pow10(e - 1)
  }

  /** The exact rational value of a Decimal. */
  function RealValue(d: Decimal): real {
    var magnitude :=
      if d.exponent >= 0 then (d.coefficient * Pow10(d.exponent)) as real
      else d.coefficient as real / Pow10(-d.exponent) as real;
    if d.negative then -magnitude else magnitude
  }

  /** `Decimal(i)` for an int: exponent zero, the sign and magnitude of i. */
  function FromInt(i: int): (d: Decimal)
    ensures RealValue(d) == i as real
    ensures d.exponent == 0
  {
    if i < 0 then Decimal(true, -i, 0) else Decimal(false, i, 0)
  }

  /** The ASCII characters `str.strip()` removes. */
  predicate IsSpace(c: char) {
    c == ' ' || '\t' <= c <= '\r' || '\U{1c}' <= c <= '\U{1f}'
  }

  function TrimLeft(s: string): string {
    if |s| > 0 && IsSpace(s[0]) then TrimLeft(s[1..]) else s
  }

  function TrimRight(s: string): string {
    if |s| > 0 && IsSpace(s[|s| - 1]) then TrimRight(s[..|s| - 1]) else s
  }

  /** Index of the first 'e' or 'E', or |s| when there is none. */
  function ExponentMark(s: string): (k: nat)
    ensures k <= |s|
  {
    if |s| == 0 || s[0] == 'e' || s[0] == 'E' then 0 else 1 + ExponentMark(s[1..])
  }

  /** Index of the first '.', or |s| when there is none. */
  function PointMark(s: string): (k: nat)
    ensures k <= |s|
  {
    if |s| == 0 || s[0] == '.' then 0 else 1 + PointMark(s[1..])
  }

  /** The exponent after the indicator: an optional sign and at least one digit. */
  function ParseExponent(s: string): Option<int> {
    if |s| > 0 && s[0] == '+' then
      (if |s| > 1 && AllDigits(s[1..]) then Some(DigitsValue(s[1..]) as int) else None)
    else ParseInt(s)
  }

  /** The digits before the indicator, with at most one '.': gives the
      coefficient and the number of digits after the point. */
  function ParseMantissa(s: string): Option<(nat, nat)> {
    var p := PointMark(s);
    if p == |s| then
      (if |s| > 0 && AllDigits(s) then Some((DigitsValue(s), 0)) else None)
    else
      var whole, fraction := s[..p], s[p + 1..];
      if |whole| + |fraction| > 0 && AllDigits(whole) && AllDigits(fraction)
      then Some((DigitsValue(whole + fraction), |fraction|))
      else None
  }

  /** The finite numeric strings `Decimal(str)` accepts: surrounding
      whitespace, an optional sign, digits with at most one point and at least
      one digit, then an optional exponent `e`/`E` with optional sign. */
  function Parse(s: string): Option<Decimal> {
    ParseSigned(TrimRight(TrimLeft(s)))
  }

  function ParseSigned(t: string): Option<Decimal> {
    if |t| > 0 && t[0] == '-' then ParseUnsigned(true, t[1..])
    else if |t| > 0 && t[0] == '+' then ParseUnsigned(false, t[1..])
    else ParseUnsigned(false, t)
  }

  function ParseUnsigned(negative: bool, body: string): Option<Decimal> {
    var e := ExponentMark(body);
    var exponent := if e == |body| then Some(0) else ParseExponent(body[e + 1..]);
    var mantissa := ParseMantissa(body[..e]);
    if exponent.None? || mantissa.None? then None
    else Some(Decimal(negative, mantissa.value.0, exponent.value - mantissa.value.1))
  }

  predicate IsDigitList(ds: seq<int>) {
    forall i | 0 <= i < |ds| :: 0 <= ds[i] <= 9
  }

  /** The coefficient a digit tuple denotes; leading zeros do not count. */
  function DigitListValue(ds: seq<int>): nat
    requires IsDigitList(ds)
  {
    if |ds| == 0 then 0 else DigitListValue(ds[..|ds| - 1]) * 10 + ds[|ds| - 1]
  }

  /** The decimal digits of a coefficient, most significant first. */
  function DigitList(n: nat): (ds: seq<int>)
    ensures |ds| > 0 && IsDigitList(ds)
  {
    if n < 10 then [n] else DigitList(n / 10) + [n % 10]
  }

  lemma {:induction false} DigitListRoundTrip(n: nat)
    ensures DigitListValue(DigitList(n)) == n
  {
    var ds := DigitList(n);
    if n >= 10 {
      DigitListRoundTrip(n / 10);
      assert ds[..|ds| - 1] == DigitList(n / 10);
    }
  }

  /** `Decimal.as_tuple()` of a finite Decimal. */
  function AsTuple(d: Decimal): Number {
    TupleNumber(if d.negative then 1 else 0, DigitList(d.coefficient), d.exponent)
  }

  /** `Decimal(value)`: exact for ints and strings, the same Decimal back for a
      Decimal, the tuple's sign, digits and exponent for a tuple;
      InvalidOperation for a string that is not a number, ValueError for a
      tuple of the wrong size or with a bad sign or digit, and TypeError for
      anything else. */
  function Coerce(v: Number): (r: Result<Decimal>)
    ensures v.DecNumber? ==> r == Ok(v.d)
    ensures v.IntNumber? ==>
      && r.Ok? && RealValue(r.value) == v.i as real && r.value.exponent == 0
      && r.value.negative == (v.i < 0)
    ensures v.StrNumber? ==> (r.Ok? <==> Parse(v.s).Some?)
    ensures v.StrNumber? && r.Ok? ==> r.value == Parse(v.s).value
    ensures v.StrNumber? && r.Err? ==> r.error == InvalidOperation
    ensures v.TupleNumber? ==> (r.Ok? <==> (v.sign == 0 || v.sign == 1) && IsDigitList(v.digits))
    ensures v.TupleNumber? && r.Ok? ==>
      && r.value.negative == (v.sign == 1) && r.value.exponent == v.exponent
      && r.value.coefficient == DigitListValue(v.digits)
    ensures v.TupleNumber? && r.Err? ==> r.error == ValueError
    ensures v.WrongSizeTuple? ==> r == Err(ValueError)
    ensures v.OtherValue? ==> r == Err(TypeError)
  {
    match v
    case OtherValue => Err(TypeError)
    case WrongSizeTuple => Err(ValueError)
    case TupleNumber(sign, digits, exponent) =>
      if sign != 0 && sign != 1 then Err(ValueError)
      else if !IsDigitList(digits) then Err(ValueError)
      else Ok(Decimal(sign == 1, DigitListValue(digits), exponent))
    case IntNumber(i) => Ok(FromInt(i))
    case DecNumber(d) => Ok(d)
    case StrNumber(s) =>
      var p := Parse(s);
      if p.Some? then Ok(p.value) else Err(InvalidOperation)
  }

  /** Coercion is idempotent: coercing an already coerced value changes nothing. */
  lemma CoerceIdempotent(v: Number)
    requires Coerce(v).Ok?
    ensures Coerce(DecNumber(Coerce(v).value)) == Coerce(v)
  {
  }

  /** A Decimal is rebuilt exactly from its own `as_tuple()`. */
  lemma CoerceAsTuple(d: Decimal)
    ensures Coerce(AsTuple(d)) == Ok(d)
  {
    DigitListRoundTrip(d.coefficient);
  }

  /** The tuple `(0, (3, 1, 4), -2)` is the Decimal 3.14, as the string is. */
  lemma CoerceTupleIsExact()
    ensures Coerce(TupleNumber(0, [3, 1, 4], -2)) == Ok(Decimal(false, 314, -2))
  {
    var ds := [3, 1, 4];
    assert IsDigitList(ds);
    assert ds[..2] == [3, 1] && ds[..2][..1] == [3] && ds[..2][..1][..0] == [];
    assert DigitListValue([3]) == 3;
    assert DigitListValue([3, 1]) == 31;
    assert DigitListValue(ds) == 314;
  }

  /** A string is taken digit for digit: "3.14" is exactly 314 * 10^-2. */
  lemma CoerceIsExact()
    ensures Coerce(StrNumber("3.14")) == Ok(Decimal(false, 314, -2))
    ensures RealValue(Decimal(false, 314, -2)) == 3.14
  {
    var s := "3.14";
    assert TrimLeft(s) == s && TrimRight(s) == s;
    assert ExponentMark(s) == 4 by {
      assert s[1..] == ".14" && s[1..][1..] == "14" && "14"[1..] == "4" && "4"[1..] == "";
    }
    assert s[..4] == s;
    assert PointMark(s) == 1 by { assert s[1..] == ".14"; }
    assert s[..1] == "3" && s[2..] == "14";
    assert DigitsValue("314") == 314 by {
      assert "314"[..2] == "31" && "31"[..1] == "3";
    }
    assert ParseMantissa(s) == Some((314, 2)) by { assert "3" + "14" == "314"; }
    assert Pow10(2) == 100;
  }

  /** Malformed strings are refused, not read as zero. */
  lemma CoerceRefusesMalformed()
    ensures Coerce(StrNumber("")).Err?
    ensures Coerce(StrNumber(".")).Err?
    ensures Coerce(StrNumber("1.2.3")).Err?
    ensures Coerce(StrNumber("12e")).Err?
  {
    assert "."[1..] == "";
    var s := "1.2.3";
    assert ExponentMark(s) == 5 by {
      assert s[1..] == ".2.3" && s[1..][1..] == "2.3" && "2.3"[1..] == ".3" && ".3"[1..] == "3" && "3"[1..] == "";
    }
    assert s[..5] == s && s[2..] == "2.3";
    assert !AllDigits("2.3") by { assert "2.3"[1] == '.'; }
    var t := "12e";
    assert ExponentMark(t) == 2 by { assert t[1..] == "2e" && "2e"[1..] == "e"; }
    assert t[3..] == "";
  }

  /** A canonical rendering in scientific form: [-]coefficient E exponent. */
  function Render(d: Decimal): string {
    (if d.negative then "-" else "") + NatToDigits(d.coefficient) + "E" + IntToDecimal(d.exponent)
  }

  lemma {:induction false} ExponentMarkAfterDigits(a: string, b: string)
    requires AllDigits(a)
    ensures ExponentMark(a + b) == |a| + ExponentMark(b)
  {
    if |a| > 0 {
      assert (a + b)[1..] == a[1..] + b;
      ExponentMarkAfterDigits(a[1..], b);
    } else {
      assert a + b == b;
    }
  }

  lemma {:induction false} PointMarkOfDigits(a: string)
    requires AllDigits(a)
    ensures PointMark(a) == |a|
  {
    if |a| > 0 {
      PointMarkOfDigits(a[1..]);
    }
  }

  lemma ExponentRoundTrip(n: int)
    ensures ParseExponent(IntToDecimal(n)) == Some(n)
  {
    IntRoundTrip(n);
  }

  lemma RenderIsTrimmed(d: Decimal)
    ensures TrimRight(TrimLeft(Render(d))) == Render(d)
  {
    var s := Render(d);
    var exp := IntToDecimal(d.exponent);
    assert s[|s| - 1] == exp[|exp| - 1];
  }

  lemma {:induction false} ParseUnsignedRender(negative: bool, c: nat, x: int)
    ensures ParseUnsigned(negative, NatToDigits(c) + "E" + IntToDecimal(x)) == Some(Decimal(negative, c, x))
  {
    var digits := NatToDigits(c);
    var exp := IntToDecimal(x);
    var body := digits + "E" + exp;
    ExponentMarkAfterDigits(digits, "E" + exp);
    assert body == digits + ("E" + exp);
    assert ExponentMark("E" + exp) == 0;
    assert body[..|digits|] == digits;
    assert body[|digits| + 1..] == exp;
    ExponentRoundTrip(x);
    PointMarkOfDigits(digits);
    DigitsRoundTrip(c);
    assert ParseMantissa(digits) == Some((c, 0));
  }

  /** Every Decimal is recovered exactly from its rendering: the parser loses
      no sign, digit or exponent. */
  lemma {:induction false} ParseRender(d: Decimal)
    ensures Parse(Render(d)) == Some(d)
  {
    var s := Render(d);
    var body := NatToDigits(d.coefficient) + "E" + IntToDecimal(d.exponent);
    RenderIsTrimmed(d);
    ParseUnsignedRender(d.negative, d.coefficient, d.exponent);
    if d.negative {
      assert s == "-" + body && s[1..] == body;
    } else {
      assert s == body && IsDigit(s[0]);
    }
  }
}
