/** The two pieces of JavaScript semantics the request handlers rely on:
    truthiness of request-body fields (`!field`) and the decimal text an
    integer Number turns into inside a template literal (`${available}`). */
module Js {

  /** A field of a parsed JSON request body: absent (or null) or present. */
  datatype Option<T> = None | Some(value: T)

  /** `!f` for a numeric field: absent, null and 0 are falsy. */
  predicate NumFalsy(f: Option<int>)
  {
    f.None? || f.value == 0
  }

  /** `!f` for a text field: absent, null and the empty string are falsy. */
  predicate TextFalsy(f: Option<string>)
  {
    f.None? || f.value == ""
  }

  /** `f || ""` for a text field. */
  function TextOrEmpty(f: Option<string>): (s: string)
    ensures TextFalsy(f) ==> s == ""
    ensures !TextFalsy(f) ==> s == f.value && s != ""
  {
    if TextFalsy(f) then "" else f.value
  }

  predicate IsDigit(c: char)
  {
    '0' <= c <= '9'
  }

  function DigitChar(d: int): (c: char)
    requires 0 <= d < 10
    ensures IsDigit(c) && DigitValue(c) == d
  {
    (48 + d) as char
  }

  function DigitValue(c: char): int
  {
    c as int - 48
  }

  /** The decimal digits of a natural number, most significant first, without leading zeros. */
  function Digits(n: nat): (s: string)
    ensures |s| >= 1
    ensures forall i :: 0 <= i < |s| ==> IsDigit(s[i])
    ensures |s| > 1 ==> s[0] != '0'
    decreases n
  {
    if n < 10 then [DigitChar(n)] else Digits(n / 10) + [DigitChar(n % 10)]
  }

  /** Reads a string of decimal digits back as a number. */
  function ParseDigits(s: string): int
    decreases |s|
  {
    if |s| == 0 then 0 else ParseDigits(s[..|s| - 1]) * 10 + DigitValue(s[|s| - 1])
  }

  /** `String(n)` for an integral Number below 1e21 in magnitude: an optional
      minus sign, then the digits. */
  function NumberToString(n: int): string
  {
    if n < 0 then "-" + Digits(-n) else Digits(n)
  }

  function ParseNumber(s: string): int
  {
    if |s| > 0 && s[0] == '-' then -ParseDigits(s[1..]) else ParseDigits(s)
  }

  lemma {:induction false} DigitsRoundTrip(n: nat)
    ensures ParseDigits(Digits(n)) == n
    decreases n
  {
    if n >= 10 {
      var s := Digits(n);
      DigitsRoundTrip(n / 10);
      assert s[..|s| - 1] == Digits(n / 10);
    }
  }

  /** The text of a number determines the number. */
  lemma NumberRoundTrip(n: int)
    ensures ParseNumber(NumberToString(n)) == n
  {
    if n < 0 {
      DigitsRoundTrip(-n);
      assert ("-" + Digits(-n))[1..] == Digits(-n);
    } else {
      DigitsRoundTrip(n);
      assert IsDigit(Digits(n)[0]);
    }
  }

  lemma NumberToStringInjective(a: int, b: int)
    requires NumberToString(a) == NumberToString(b)
    ensures a == b
  {
    NumberRoundTrip(a);
    NumberRoundTrip(b);
  }
}
