/** The parts of Go's strconv package the configuration types call: decimal
    integer parsing with a bit-size range check (ParseInt, Atoi), its inverse
    (FormatInt, as a reference), and ParseBool. */
module StrConv {
  import opened Wrappers
  import opened Errors

  predicate IsDigit(c: char) { '0' <= c <= '9' }

  predicate AllDigits(s: string) { forall i :: 0 <= i < |s| ==> IsDigit(s[i]) }

  function DigitValue(c: char): nat
    requires IsDigit(c)
  {
    c as int - '0' as int
  }

  /** The number a digit string denotes, most significant digit first. */
  function DigitsValue(s: string): nat
    requires AllDigits(s)
  {
    if s == [] then 0 else DigitsValue(s[..|s| - 1]) * 10 + DigitValue(s[|s| - 1])
  }

  /** The syntax ParseInt accepts in base 10: an optional sign, then one or more
      decimal digits (no prefix, no underscores, no spaces). */
  function ParseDecimal(s: string): (r: Option<int>)
    ensures r.Some? ==> |s| > 0
    ensures r.Some? && AllDigits(s) ==> r.value == DigitsValue(s)
  {
    if s == [] then None
    else
      var neg := s[0] == '-';
      var body := if s[0] == '-' || s[0] == '+' then s[1..] else s;
      if body == [] || !AllDigits(body) then None
      else if neg then Some(-(DigitsValue(body) as int)) else Some(DigitsValue(body))
  }

  /** The range of a signed integer of the given bit size. */
  predicate InRange(v: int, bits: nat) {
    if bits == 32 then -0x8000_0000 <= v < 0x8000_0000
    else -0x8000_0000_0000_0000 <= v < 0x8000_0000_0000_0000
  }

  /** strconv.ParseInt(s, 10, bits); fn names the caller in the error, as Atoi
      rewrites it. */
  function ParseInt(s: string, bits: nat, fn: string): (r: Result<int, Error>)
    requires bits == 32 || bits == 64
    ensures r.Success? <==> ParseDecimal(s).Some? && InRange(ParseDecimal(s).value, bits)
    ensures r.Success? ==> r.value == ParseDecimal(s).value
    ensures r.Failure? ==> r.error.NumError? && r.error.fn == fn && r.error.num == s
  {
    match ParseDecimal(s)
    case None => Failure(NumError(fn, s, Syntax))
    case Some(v) => if InRange(v, bits) then Success(v) else Failure(NumError(fn, s, OutOfRange))
  }

  /** strconv.Atoi on a 64-bit platform. */
  function Atoi(s: string): Result<int, Error> {
    ParseInt(s, 64, "Atoi")
  }

  /** strconv.ParseBool. */
  function ParseBool(s: string): (r: Result<bool, Error>)
    ensures r.Failure? ==> r.error == NumError("ParseBool", s, Syntax)
  {
    if s in {"1", "t", "T", "TRUE", "true", "True"} then Success(true)
    else if s in {"0", "f", "F", "FALSE", "false", "False"} then Success(false)
    else Failure(NumError("ParseBool", s, Syntax))
  }

  function DigitChar(d: nat): (c: char)
    requires d < 10
    ensures IsDigit(c) && DigitValue(c) == d
  {
    ('0' as int + d) as char
  }

  /** The decimal digits of n, most significant first (no leading zeros). */
  function Digits(n: nat): (s: string)
    ensures |s| >= 1 && AllDigits(s)
  {
    if n < 10 then [DigitChar(n)] else Digits(n / 10) + [DigitChar(n % 10)]
  }

  /** strconv.FormatInt(n, 10): the reference rendering of an integer. */
  function FormatInt(n: int): string {
    if n < 0 then "-" + Digits(-n) else Digits(n)
  }

  lemma {:induction false} DigitsValueOfDigits(n: nat)
    ensures DigitsValue(Digits(n)) == n
  {
    if n >= 10 {
      DigitsValueOfDigits(n / 10);
      var s := Digits(n);
      assert s[..|s| - 1] == Digits(n / 10);
    }
  }

  /** Every integer is read back from its decimal rendering. */
  lemma ParseFormat(n: int)
    ensures ParseDecimal(FormatInt(n)) == Some(n)
  {
    if n < 0 {
      ParseNegated(-n);
    } else {
      ParseDigits(n);
    }
  }

  /** The digits of a natural number parse to it. */
  lemma ParseDigits(n: nat)
    ensures ParseDecimal(Digits(n)) == Some(n)
  {
    DigitsValueOfDigits(n);
    var s := Digits(n);
    assert IsDigit(s[0]);
  }

  /** A minus sign before the digits of a number parses to its negation. */
  lemma ParseNegated(n: nat)
    ensures ParseDecimal("-" + Digits(n)) == Some(-(n as int))
  {
    DigitsValueOfDigits(n);
    var s := "-" + Digits(n);
    assert s[1..] == Digits(n);
  }

  /** Every integer in range parses back from its decimal rendering. */
  lemma ParseFormatRoundTrip(n: int, bits: nat)
    requires bits == 32 || bits == 64
    requires InRange(n, bits)
    ensures ParseInt(FormatInt(n), bits, "ParseInt") == Success(n)
  {
    ParseFormat(n);
  }

  /** The sign and leading zeros are accepted, as strconv does. */
  lemma SignAndLeadingZeros()
    ensures ParseDecimal("+007") == Some(7)
    ensures ParseDecimal("-0") == Some(0)
    ensures ParseDecimal("").None? && ParseDecimal("+").None? && ParseDecimal("1_000").None?
  {
    assert "+007"[1..] == "007";
    assert "0"[..0] == "";
    assert DigitsValue("0") == 0;
    assert "00"[..1] == "0";
    assert DigitsValue("00") == 0;
    assert "007"[..2] == "00";
    assert DigitsValue("007") == 7;
    assert "-0"[1..] == "0";
    assert !IsDigit("1_000"[1]);
  }
}
