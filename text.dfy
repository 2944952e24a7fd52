/** String helpers with Python's meaning: `sep.join(xs)`, `s.split(sep)` and
    `str(n)` / `'%d' % n` for integers. */
module Text {
  import opened Results

  const Comma: char := ','

  predicate IsDigit(c: char) {
    '0' <= c <= '9'
  }

  predicate AllDigits(s: string) {
    forall i | 0 <= i < |s| :: IsDigit(s[i])
  }

  function DigitChar(d: nat): (c: char)
    requires d < 10
    ensures IsDigit(c)
  {
    ('0' as int + d) as char
  }

  function DigitValue(c: char): (d: nat)
    requires IsDigit(c)
    ensures d < 10 && DigitChar(d) == c
  {
    c as int - '0' as int
  }

  /** The decimal digits of a non-negative integer, most significant first. */
  function NatToDigits(n: nat): (s: string)
    ensures |s| > 0 && AllDigits(s)
  {
    if n < 10 then [DigitChar(n)] else NatToDigits(n / 10) + [DigitChar(n % 10)]
  }

  /** The integer that a string of decimal digits denotes. */
  function DigitsValue(s: string): nat
    requires AllDigits(s)
  {
    if |s| == 0 then 0 else DigitsValue(s[..|s| - 1]) * 10 + DigitValue(s[|s| - 1])
  }

  lemma {:induction false} DigitsRoundTrip(n: nat)
    ensures DigitsValue(NatToDigits(n)) == n
  {
    var s := NatToDigits(n);
    if n >= 10 {
      DigitsRoundTrip(n / 10);
      assert s[..|s| - 1] == NatToDigits(n / 10);
    }
  }

  /** Python's `str(n)` (and `'%d' % n`) for an int. */
  function IntToDecimal(n: int): (s: string)
    ensures |s| > 0
    ensures forall i | 0 <= i < |s| :: IsDigit(s[i]) || (i == 0 && s[i] == '-')
  {
    if n < 0 then "-" + NatToDigits(-n) else NatToDigits(n)
  }

  /** Reads back an optionally '-'-signed string of digits, as a server reads a
      number out of a query string. */
  function ParseInt(s: string): Option<int> {
    if |s| > 0 && s[0] == '-' then
      (if |s| > 1 && AllDigits(s[1..]) then Some(-(DigitsValue(s[1..]) as int)) else None)
    else if |s| > 0 && AllDigits(s) then Some(DigitsValue(s))
    else None
  }

  lemma IntRoundTrip(n: int)
    ensures ParseInt(IntToDecimal(n)) == Some(n)
  {
    DigitsRoundTrip(if n < 0 then -n else n);
    if n < 0 {
      assert IntToDecimal(n)[1..] == NatToDigits(-n);
    }
  }

  /** Python's `sep.join(xs)`. */
  function Join(xs: seq<string>, sep: char): string {
    if |xs| == 0 then ""
    else if |xs| == 1 then xs[0]
    else xs[0] + [sep] + Join(xs[1..], sep)
  }

  /** Python's `s.split(sep)` for a one-character separator: splits at every
      occurrence, so the empty string gives one empty piece. */
  function Split(s: string, sep: char): (r: seq<string>)
    ensures |r| > 0
  {
    if |s| == 0 then [""]
    else
      var rest := Split(s[1..], sep);
      if s[0] == sep then [""] + rest else [[s[0]] + rest[0]] + rest[1..]
  }

  lemma {:induction false} SplitNoSeparator(x: string, sep: char)
    requires sep !in x
    ensures Split(x, sep) == [x]
  {
    if |x| > 0 {
      assert sep !in x[1..] by {
        forall i | 0 <= i < |x[1..]| ensures x[1..][i] != sep { assert x[1..][i] == x[i + 1]; }
      }
      SplitNoSeparator(x[1..], sep);
      assert [x[0]] + x[1..] == x;
    }
  }

  lemma {:induction false} SplitAfterPiece(x: string, t: string, sep: char)
    requires sep !in x
    ensures Split(x + [sep] + t, sep) == [x] + Split(t, sep)
  {
    if |x| == 0 {
      assert (x + [sep] + t)[1..] == t;
    } else {
      var s := x + [sep] + t;
      assert s[1..] == x[1..] + [sep] + t;
      assert sep !in x[1..] by {
        forall i | 0 <= i < |x[1..]| ensures x[1..][i] != sep { assert x[1..][i] == x[i + 1]; }
      }
      SplitAfterPiece(x[1..], t, sep);
      assert [x[0]] + x[1..] == x;
    }
  }

  /** Splitting a join gives back the list, as long as the list is non-empty
      and no element contains the separator. */
  lemma {:induction false} SplitJoin(xs: seq<string>, sep: char)
    requires |xs| > 0
    requires forall i | 0 <= i < |xs| :: sep !in xs[i]
    ensures Split(Join(xs, sep), sep) == xs
  {
    if |xs| == 1 {
      SplitNoSeparator(xs[0], sep);
    } else {
      SplitJoin(xs[1..], sep);
      SplitAfterPiece(xs[0], Join(xs[1..], sep), sep);
      assert [xs[0]] + xs[1..] == xs;
    }
  }

  /** A decimal rendering never contains the list separator. */
  lemma IntToDecimalHasNoComma(n: int)
    ensures Comma !in IntToDecimal(n)
  {
    var s := IntToDecimal(n);
    forall i | 0 <= i < |s| ensures s[i] != Comma {}
  }
}
