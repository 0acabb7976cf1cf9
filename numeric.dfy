/** The C and C++ library conversions the executor relies on (atoi, std::stoi,
    strtod, printf's %d) and main.c's all_zeros, modelled on text as a
    sequence of characters in the "C" locale. */
module Numeric {

  /** An optional value; shared by every module of the model. */
  datatype Option<T> = None | Some(value: T)

  const Int32Min: int := -0x8000_0000
  const Int32Max: int := 0x7fff_ffff

  /** The range of a 32-bit `int`; leaving it is undefined behaviour. */
  predicate IsInt32(n: int)
  {
    Int32Min <= n <= Int32Max
  }

  predicate IsDigit(c: char)
  {
    '0' <= c <= '9'
  }

  /** isspace() in the "C" locale. */
  predicate IsSpace(c: char)
  {
    c == ' ' || c == '\t' || c == '\n' || c == '\U{000B}' || c == '\U{000C}' || c == '\r'
  }

  predicate AllDigits(s: string)
  {
    forall i :: 0 <= i < |s| ==> IsDigit(s[i])
  }

  function DigitValue(c: char): (n: nat)
    requires IsDigit(c)
    ensures n < 10
  {
    c as int - '0' as int
  }

  function DigitChar(d: nat): (c: char)
    requires d < 10
    ensures IsDigit(c) && DigitValue(c) == d
  {
    ('0' as int + d) as char
  }

  /** The value of a decimal numeral, most significant digit first. */
  function DigitsValue(ds: string): nat
    requires AllDigits(ds)
    decreases |ds|
  {
    if ds == [] then 0 else DigitsValue(ds[..|ds| - 1]) * 10 + DigitValue(ds[|ds| - 1])
  }

  /** The value of the digits after a decimal point: "25" is 0.25. */
  function FractionValue(ds: string): (r: real)
    requires AllDigits(ds)
    ensures 0.0 <= r < 1.0
  {
    if ds == [] then 0.0 else (DigitValue(ds[0]) as real + FractionValue(ds[1..])) / 10.0
  }

  /** The end of the longest run of digits that starts at `i`. */
  function DigitsEnd(s: string, i: nat): (j: nat)
    requires i <= |s|
    ensures i <= j <= |s|
    ensures forall k :: i <= k < j ==> IsDigit(s[k])
    ensures j == |s| || !IsDigit(s[j])
    decreases |s| - i
  {
    if i < |s| && IsDigit(s[i]) then DigitsEnd(s, i + 1) else i
  }

  /** The end of the longest run of white space that starts at `i`. */
  function SpaceEnd(s: string, i: nat): (j: nat)
    requires i <= |s|
    ensures i <= j <= |s|
    ensures forall k :: i <= k < j ==> IsSpace(s[k])
    ensures j == |s| || !IsSpace(s[j])
    decreases |s| - i
  {
    if i < |s| && IsSpace(s[i]) then SpaceEnd(s, i + 1) else i
  }

  /** An optional sign at `i`: whether it is '-', and where the digits start. */
  function SignAt(s: string, i: nat): (bool, nat)
    requires i <= |s|
  {
    if i < |s| && s[i] == '-' then (true, i + 1)
    else if i < |s| && s[i] == '+' then (false, i + 1)
    else (false, i)
  }

  /** What strtol reads of a string: leading white space, an optional sign,
      and the digits that follow (possibly none). */
  datatype IntPrefix = IntPrefix(negative: bool, digits: string)

  function ScanIntPrefix(s: string): (p: IntPrefix)
    ensures AllDigits(p.digits)
  {
    var (negative, j) := SignAt(s, SpaceEnd(s, 0));
    IntPrefix(negative, s[j..DigitsEnd(s, j)])
  }

  function PrefixValue(p: IntPrefix): int
    requires AllDigits(p.digits)
  {
    var magnitude: int := DigitsValue(p.digits);
    if p.negative then -magnitude else magnitude
  }

  /** atoi(): the value of the integer prefix, 0 when it has no digits.
      Whether the value fits an `int` is left to the caller, since atoi's
      result is undefined when it does not. */
  function Atoi(s: string): int
  {
    PrefixValue(ScanIntPrefix(s))
  }

  /** The outcome of std::stoi: a value, or the exception it throws. */
  datatype Conversion = Converted(value: int) | InvalidArgument | OutOfRange

  function Stoi(s: string): (r: Conversion)
    ensures r.Converted? ==> IsInt32(r.value) && r.value == Atoi(s)
    ensures r == InvalidArgument <==> ScanIntPrefix(s).digits == []
    ensures r == OutOfRange <==> ScanIntPrefix(s).digits != [] && !IsInt32(Atoi(s))
  {
    var p := ScanIntPrefix(s);
    if p.digits == [] then InvalidArgument
    else if !IsInt32(PrefixValue(p)) then OutOfRange
    else Converted(PrefixValue(p))
  }

  /** strtod() on decimal text: white space, an optional sign, digits and an
      optional fraction; 0 when nothing converts. The value is exact. */
  function Strtod(s: string): real
  {
    var (negative, j) := SignAt(s, SpaceEnd(s, 0));
    var k := DigitsEnd(s, j);
    var whole := DigitsValue(s[j..k]) as real;
    var fraction :=
      if k < |s| && s[k] == '.' then
        var e := DigitsEnd(s, k + 1);
        FractionValue(s[k + 1..e])
      else 0.0;
    if negative then -(whole + fraction) else whole + fraction
  }

  /** The property all_zeros tests. */
  predicate IsAllZeros(s: string)
  {
    forall i :: 0 <= i < |s| ==> s[i] == '0'
  }

  /** all_zeros (main.c, main.cpp): true exactly when every character is '0';
      in particular for the empty string. */
  method AllZeros(s: string) returns (b: bool)
    ensures b <==> IsAllZeros(s)
    ensures s == [] ==> b
  {
    var i := 0;
    while i < |s|
      invariant 0 <= i <= |s|
      invariant forall k :: 0 <= k < i ==> s[k] == '0'
    {
      if s[i] != '0' {
        return false;
      }
      i := i + 1;
    }
    return true;
  }

  /** printf's %d of a natural number. */
  function NatText(n: nat): (t: string)
    ensures 1 <= |t| && AllDigits(t)
    decreases n
  {
    if n < 10 then [DigitChar(n)] else NatText(n / 10) + [DigitChar(n % 10)]
  }

  /** printf's %d and std::cout's rendering of an int. */
  function IntText(i: int): (t: string)
    ensures 1 <= |t|
  {
    if i < 0 then "-" + NatText(-i) else NatText(i)
  }

  lemma {:induction false} NatTextValue(n: nat)
    ensures DigitsValue(NatText(n)) == n
    decreases n
  {
    if n >= 10 {
      var t := NatText(n / 10);
      var u := t + [DigitChar(n % 10)];
      assert u[..|u| - 1] == t;
      NatTextValue(n / 10);
    }
  }

  lemma {:induction false} DigitsRunToEnd(s: string, i: nat)
    requires i <= |s|
    requires forall k :: i <= k < |s| ==> IsDigit(s[k])
    ensures DigitsEnd(s, i) == |s|
    decreases |s| - i
  {
    if i < |s| {
      DigitsRunToEnd(s, i + 1);
    }
  }

  /** Printing an int and reading the text back with atoi or std::stoi gives
      the same int. */
  lemma IntTextRoundTrip(i: int)
    ensures Atoi(IntText(i)) == i
    ensures IsInt32(i) ==> Stoi(IntText(i)) == Converted(i)
  {
    var t := IntText(i);
    var m: nat := if i < 0 then -i else i;
    var ds := NatText(m);
    var start := if i < 0 then 1 else 0;
    assert t[start..] == ds;
    assert !IsSpace(t[0]);
    assert SpaceEnd(t, 0) == 0;
    assert SignAt(t, 0) == (i < 0, start);
    DigitsRunToEnd(t, start);
    assert ScanIntPrefix(t) == IntPrefix(i < 0, ds);
    NatTextValue(m);
  }
}
