/** Decimal number parsing and printing: the subset of `std::stoi`,
    `std::stod`, Python's `int()` and `float()` that the readers rely on.
    Exponents, hexadecimal forms, `inf` and `nan` are not modelled. */
module Numbers {
  import opened Wrappers
  import opened Text

  const INT_MIN: int := -0x8000_0000
  const INT_MAX: int := 0x7FFF_FFFF

  function NotDigit(c: char): bool { !IsDigit(c) }

  predicate AllDigits(s: string) { forall i :: 0 <= i < |s| ==> IsDigit(s[i]) }

  function DigitValue(c: char): nat
    requires IsDigit(c)
  {
    c as int - '0' as int
  }

  function DigitChar(d: nat): (c: char)
    requires d < 10
    ensures IsDigit(c) && DigitValue(c) == d
  {
    ('0' as int + d) as char
  }

  /** The value of a string of decimal digits, most significant first. */
  function DigitsValue(ds: string): nat
    requires AllDigits(ds)
  {
    if ds == [] then 0 else DigitsValue(ds[..|ds| - 1]) * 10 + DigitValue(ds[|ds| - 1])
  }

  function Pow10(k: nat): (p: nat)
    ensures p >= 1
  {
    if k == 0 then 1 else 10 * Pow10(k - 1)
  }

  /** The numeric prefix `[+-]digits` of a string: its value and the rest
      of the string. */
  function IntPrefix(s: string): Option<(int, string)> {
    var t := s;
    var sign := if t != [] && (t[0] == '-' || t[0] == '+') then 1 else 0;
    var n := RunLength(t[sign..], NotDigit);
    if n == 0 then None
    else
      var digits := t[sign..sign + n];
      var v: int := DigitsValue(digits);
      Some((if sign == 1 && t[0] == '-' then -v else v, t[sign + n..]))
  }

  /** `std::stoi`: leading whitespace skipped, trailing text ignored, a value
      outside the 32-bit range fails. */
  function StoI(s: string): (r: Option<int>)
    ensures r.Some? ==> INT_MIN <= r.value <= INT_MAX
  {
    var t := SkipSpaces(s);
    match IntPrefix(t)
    case None => None
    case Some((v, _)) => if INT_MIN <= v <= INT_MAX then Some(v) else None
  }

  function SkipSpaces(s: string): (r: string)
    ensures EndsWith(s, r)
    ensures r == [] || !IsCSpace(r[0])
  {
    if s == [] || !IsCSpace(s[0]) then s else SkipSpaces(s[1..])
  }

  /** Python's `int()` on a whitespace-free token: the whole token must be
      `[+-]digits`. */
  function PyInt(s: string): (r: Option<int>)
    ensures r.Some? ==> s != []
  {
    match IntPrefix(s)
    case None => None
    case Some((v, rest)) => if rest == [] then Some(v) else None
  }

  /** Decimal representation without leading zeros, as `std::to_string` and
      `str()` print an int. */
  function NatToString(n: nat): (s: string)
    ensures s != [] && AllDigits(s)
  {
    if n < 10 then [DigitChar(n)] else NatToString(n / 10) + [DigitChar(n % 10)]
  }

  function IntToString(i: int): (s: string)
    ensures s != []
  {
    if i < 0 then "-" + NatToString(-i) else NatToString(i)
  }

  lemma {:induction false} NatToStringValue(n: nat)
    ensures DigitsValue(NatToString(n)) == n
  {
    if n >= 10 {
      var s := NatToString(n);
      assert s[..|s| - 1] == NatToString(n / 10);
      NatToStringValue(n / 10);
    }
  }

  lemma {:induction false} RunOfDigits(ds: string, rest: string)
    requires AllDigits(ds)
    requires rest == [] || !IsDigit(rest[0])
    ensures RunLength(ds + rest, NotDigit) == |ds|
  {
    RunLengthOfPrefix(ds, rest, NotDigit);
  }

  /** The printed digits of `n`, after an optional sign, are the whole
      numeric prefix. */
  lemma DigitsPrefix(s: string, sign: nat, n: nat)
    requires sign <= 1 && sign <= |s|
    requires s[sign..] == NatToString(n)
    requires sign == 1 ==> s[0] == '-'
    requires sign == 0 ==> s == [] || (s[0] != '-' && s[0] != '+')
    ensures IntPrefix(s) == Some((if sign == 1 then -(n as int) else n as int, []))
  {
    var ds := NatToString(n);
    NatToStringValue(n);
    RunOfDigits(ds, []);
    assert ds + [] == ds;
    var e := sign + |ds|;
    forall k | 0 <= k < |ds|
      ensures s[sign..e][k] == ds[k]
    {
      assert s[sign..][k] == s[sign + k];
    }
    assert s[sign..e] == ds;
    assert s[e..] == [];
  }

  /** Printing an int and reading it back with `std::stoi` or `int()` gives
      the same int; the partner of the integer fields of a PDB record. */
  lemma IntRoundTrip(i: int)
    requires INT_MIN <= i <= INT_MAX
    ensures StoI(IntToString(i)) == Some(i)
    ensures PyInt(IntToString(i)) == Some(i)
  {
    var s := IntToString(i);
    IntPrefixOfString(i);
    assert SkipSpaces(s) == s;
  }

  lemma IntPrefixOfString(i: int)
    ensures IntPrefix(IntToString(i)) == Some((i, []))
    ensures !IsSpace(IntToString(i)[0])
  {
    var s := IntToString(i);
    if i < 0 {
      assert s[1..] == NatToString(-i);
      DigitsPrefix(s, 1, -i);
    } else {
      var ds := NatToString(i);
      assert IsDigit(ds[0]);
      DigitsPrefix(s, 0, i);
    }
  }

  /** The decimal prefix `[+-]digits[.digits]` (at least one digit) read by
      `std::stod`: its value and the rest of the string. */
  function DecimalPrefix(s: string): Option<(real, string)> {
    var sign := if s != [] && (s[0] == '-' || s[0] == '+') then 1 else 0;
    var t := s[sign..];
    var n := RunLength(t, NotDigit);
    var hasDot := n < |t| && t[n] == '.';
    var f := if hasDot then RunLength(t[n + 1..], NotDigit) else 0;
    if n == 0 && f == 0 then None
    else
      var whole := DigitsValue(t[..n]) as real;
      var frac := if hasDot then DigitsValue(t[n + 1..n + 1 + f]) as real / Pow10(f) as real else 0.0;
      var v := whole + frac;
      var used := if hasDot then n + 1 + f else n;
      Some((if sign == 1 && s[0] == '-' then -v else v, t[used..]))
  }

  /** `std::stod`: leading whitespace skipped, trailing text ignored. */
  function StoD(s: string): Option<real> {
    match DecimalPrefix(SkipSpaces(s))
    case None => None
    case Some((v, _)) => Some(v)
  }

  /** Python's `float()` on a whitespace-free token. */
  function PyFloat(s: string): (r: Option<real>)
    ensures r.Some? ==> s != []
  {
    match DecimalPrefix(s)
    case None => None
    case Some((v, rest)) => if rest == [] then Some(v) else None
  }

  /** Every integer token is also a float token with the same value. */
  lemma PyFloatOfInt(s: string)
    requires PyInt(s).Some?
    ensures PyFloat(s) == Some(PyInt(s).value as real)
  {
    var sign := if s != [] && (s[0] == '-' || s[0] == '+') then 1 else 0;
    var t := s[sign..];
    var n := RunLength(t, NotDigit);
    assert t[sign + n - sign..] == [] by { assert s[sign + n..] == []; }
    assert t[..n] == s[sign..sign + n];
  }
}
