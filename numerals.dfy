/**
 * Python's `int(s)` on text and `str(n)` on an integer, for ASCII text.
 * `int` skips surrounding whitespace, accepts one optional sign and then
 * decimal digits with single underscores between them; anything else
 * raises ValueError, modelled as `None`.
 */
module Numerals {
  import opened Wrappers

  predicate IsDigit(c: char) { '0' <= c <= '9' }

  /** The ASCII characters `int` strips around a numeral: space, tab, line
      feed, vertical tab, form feed and carriage return. The separators
      0x1C-0x1F are not among them, so a numeral padded with one raises. */
  predicate IsSpace(c: char)
  {
    c == ' ' || 9 <= c as int <= 13
  }

  function TrimStart(s: string): (r: string)
    ensures r == [] || !IsSpace(r[0])
    ensures |r| <= |s| && r == s[|s| - |r|..]
  {
    if s != [] && IsSpace(s[0]) then TrimStart(s[1..]) else s
  }

  function TrimEnd(s: string): (r: string)
    ensures r == [] || !IsSpace(r[|r| - 1])
    ensures |r| <= |s| && r == s[..|r|]
  {
    if s != [] && IsSpace(s[|s| - 1]) then TrimEnd(s[..|s| - 1]) else s
  }

  function Strip(s: string): string
  {
    TrimEnd(TrimStart(s))
  }

  /** Decimal digits, possibly grouped by single underscores (`1_000`). */
  predicate IsNumeral(s: string)
  {
    && |s| > 0
    && IsDigit(s[0])
    && IsDigit(s[|s| - 1])
    && (forall i | 0 <= i < |s| :: IsDigit(s[i]) || s[i] == '_')
    && (forall i | 0 <= i < |s| - 1 :: s[i] == '_' ==> s[i + 1] != '_')
  }

  /** The value of a numeral; underscores carry no value. */
  function DigitsValue(s: string): nat
  {
    if s == [] then 0
    else if IsDigit(s[|s| - 1]) then 10 * DigitsValue(s[..|s| - 1]) + (s[|s| - 1] as int - '0' as int)
    else DigitsValue(s[..|s| - 1])
  }

  /** CPython's default limit on the number of digits `int` and `str` convert between
      an integer and its decimal text; longer numerals raise ValueError. */
  const MaxStrDigits: nat := 4300

  /** The number of decimal digits in `s`; underscores do not count. */
  function DigitCount(s: string): nat
  {
    if s == [] then 0 else DigitCount(s[..|s| - 1]) + (if IsDigit(s[|s| - 1]) then 1 else 0)
  }

  /** The text after the optional sign that `int` accepts. */
  predicate Accepted(body: string)
  {
    IsNumeral(body) && DigitCount(body) <= MaxStrDigits
  }

  function Magnitude(n: int): nat
  {
    if n < 0 then -n else n
  }

  /** The integer a sign and an accepted numeral denote. */
  function SignedValue(negative: bool, body: string): (r: int)
    requires Accepted(body)
    ensures |NatDecimal(Magnitude(r))| <= MaxStrDigits
  {
    NumeralLength(body);
    var v: int := DigitsValue(body);
    if negative then -v else v
  }

  /** `int(s)`: `None` when Python raises ValueError. A value it returns has at most
      `MaxStrDigits` decimal digits. */
  function ParseInt(s: string): (r: Option<int>)
    ensures r.Some? ==> |NatDecimal(Magnitude(r.value))| <= MaxStrDigits
  {
    var t := Strip(s);
    if |t| > 0 && (t[0] == '+' || t[0] == '-') then
      if Accepted(t[1..]) then Some(SignedValue(t[0] == '-', t[1..])) else None
    else if Accepted(t) then Some(SignedValue(false, t))
    else None
  }

  function Pow10(k: nat): (r: nat)
    ensures r >= 1
  {
    if k == 0 then 1 else 10 * Pow10(k - 1)
  }

  lemma {:induction false} DigitsValueBound(s: string)
    ensures DigitsValue(s) < Pow10(DigitCount(s))
  {
    if s != [] {
      DigitsValueBound(s[..|s| - 1]);
    }
  }

  lemma {:induction false} NatDecimalLength(m: nat, k: nat)
    requires k >= 1 && m < Pow10(k)
    ensures |NatDecimal(m)| <= k
    decreases m
  {
    if m >= 10 {
      assert k >= 2;
      assert m / 10 < Pow10(k - 1);
      NatDecimalLength(m / 10, k - 1);
    }
  }

  /** The value of a numeral has no more decimal digits than the numeral. */
  lemma NumeralLength(s: string)
    requires IsNumeral(s)
    ensures |NatDecimal(DigitsValue(s))| <= DigitCount(s)
  {
    DigitsValueBound(s);
    NatDecimalLength(DigitsValue(s), DigitCount(s));
  }

  lemma {:induction false} DigitCountOfDigits(s: string)
    requires forall i | 0 <= i < |s| :: IsDigit(s[i])
    ensures DigitCount(s) == |s|
  {
    if s != [] {
      DigitCountOfDigits(s[..|s| - 1]);
    }
  }

  function DigitChar(d: nat): (c: char)
    requires d < 10
    ensures IsDigit(c) && c as int - '0' as int == d
  {
    ('0' as int + d) as char
  }

  /** The decimal digits of `n`, without leading zeros. */
  function NatDecimal(n: nat): (r: string)
    ensures |r| > 0
    ensures forall i | 0 <= i < |r| :: IsDigit(r[i])
    ensures r[0] == '0' ==> n == 0
  {
    if n < 10 then [DigitChar(n)] else NatDecimal(n / 10) + [DigitChar(n % 10)]
  }

  /** `str(n)` for a Python int. */
  function Decimal(n: int): (r: string)
    ensures |r| > 0 && (r[0] == '-' <==> n < 0)
    ensures r != "NULL"
  {
    if n < 0 then "-" + NatDecimal(-n) else NatDecimal(n)
  }

  lemma {:induction false} NatDecimalValue(n: nat)
    ensures IsNumeral(NatDecimal(n))
    ensures DigitCount(NatDecimal(n)) == |NatDecimal(n)|
    ensures DigitsValue(NatDecimal(n)) == n
    decreases n
  {
    var r := NatDecimal(n);
    DigitCountOfDigits(r);
    if n >= 10 {
      var p := NatDecimal(n / 10);
      NatDecimalValue(n / 10);
      assert r == p + [DigitChar(n % 10)];
      assert r[..|r| - 1] == p;
    }
  }

  /** Text that begins and ends with a character `int` does not strip is not stripped. */
  lemma StripKeeps(s: string)
    requires |s| > 0 && !IsSpace(s[0]) && !IsSpace(s[|s| - 1])
    ensures Strip(s) == s
  {
    assert TrimStart(s) == s;
  }

  /** Text that begins or ends with a non-digit is not a numeral `int` accepts. */
  lemma NonDigitEndRejected(s: string)
    requires |s| > 0 && (!IsDigit(s[0]) || !IsDigit(s[|s| - 1]))
    ensures !Accepted(s)
  {
  }

  /** Unsigned text that begins or ends with a non-digit, once stripped, raises. */
  lemma RejectsNonDigitEnd(s: string)
    requires |s| > 0 && !IsSpace(s[0]) && !IsSpace(s[|s| - 1]) && s[0] != '+' && s[0] != '-'
    requires !IsDigit(s[0]) || !IsDigit(s[|s| - 1])
    ensures ParseInt(s) == None
  {
    StripKeeps(s);
    NonDigitEndRejected(s);
  }

  /** A numeral next to one of the separators 0x1C-0x1F is not stripped,
      so `int` raises on it. */
  lemma SeparatorsRaise(c: char, d: char)
    requires 28 <= c as int <= 31 && IsDigit(d)
    ensures ParseInt([c, d]) == None && ParseInt([d, c]) == None
  {
    RejectsNonDigitEnd([c, d]);
    RejectsNonDigitEnd([d, c]);
  }

  /** `int(str(n)) == n`: reading back a rendered integer gives the integer. Python's
      `str` itself raises beyond `MaxStrDigits` digits, so only such integers are rendered. */
  lemma DecimalRoundTrip(n: int)
    requires |NatDecimal(Magnitude(n))| <= MaxStrDigits
    ensures ParseInt(Decimal(n)) == Some(n)
  {
    var r := Decimal(n);
    assert !IsSpace(r[0]) && !IsSpace(r[|r| - 1]);
    assert TrimStart(r) == r;
    assert Strip(r) == r;
    if n < 0 {
      NatDecimalValue(-n);
      assert r[1..] == NatDecimal(-n);
    } else {
      NatDecimalValue(n);
    }
  }
}
