/** Decimal text to `i32`, as the standard library's `str::parse::<i32>`
    accepts it, and the decimal rendering `format!("{}", x)` produces. */
module IntParse {
  import opened Wrappers
  import opened Words

  predicate IsDigit(c: char) {
    '0' <= c <= '9'
  }

  predicate AllDigits(s: string) {
    forall i :: 0 <= i < |s| ==> IsDigit(s[i])
  }

  function DigitValue(c: char): nat
    requires IsDigit(c)
  {
    (c as int) - ('0' as int)
  }

  function DigitChar(d: nat): (c: char)
    requires d < 10
    ensures IsDigit(c) && DigitValue(c) == d
  {
    (('0' as int) + d) as char
  }

  /** The number a string of decimal digits denotes, most significant first. */
  function DigitsValue(s: string): nat
    requires AllDigits(s)
    decreases |s|
  {
    if s == [] then 0 else DigitsValue(s[..|s| - 1]) * 10 + DigitValue(s[|s| - 1])
  }

  /** Decimal rendering of a natural number, without leading zeros. */
  function FormatNat(n: nat): string
    decreases n
  {
    if n < 10 then [DigitChar(n)] else FormatNat(n / 10) + [DigitChar(n % 10)]
  }

  /** Decimal rendering of an `i32`: a minus sign for negative values only. */
  function FormatI32(x: i32): string {
    if x < 0 then "-" + FormatNat(-(x as int)) else FormatNat(x)
  }

  /** Parsing: one optional leading `+` or `-`, then at least one ASCII digit
      and nothing else; the value must fit in an `i32`. Leading zeros are
      accepted; whitespace is not. */
  function ParseI32(s: string): Option<i32> {
    if s == [] then None
    else if (s[0] == '+' || s[0] == '-') && |s| == 1 then None
    else
      var k := if s[0] == '+' || s[0] == '-' then 1 else 0;
      var digits := s[k..];
      if !AllDigits(digits) then None
      else
        var v: int := if s[0] == '-' then -(DigitsValue(digits) as int) else DigitsValue(digits);
        if -0x8000_0000 <= v < 0x8000_0000 then Some(v) else None
  }

  /** The rendering of `n` is all digits and denotes `n`. */
  lemma {:induction false} FormatNatValue(n: nat)
    ensures AllDigits(FormatNat(n)) && |FormatNat(n)| >= 1
    ensures DigitsValue(FormatNat(n)) == n
    decreases n
  {
    if n >= 10 {
      FormatNatValue(n / 10);
      var s := FormatNat(n);
      assert s == FormatNat(n / 10) + [DigitChar(n % 10)];
      assert s[..|s| - 1] == FormatNat(n / 10);
    }
  }

  /** The rendering of any natural number, with or without a minus sign in
      front, parses to that number or its negation when the result fits in
      an `i32`, and is rejected otherwise. */
  lemma ParseNatText(n: nat)
    ensures ParseI32(FormatNat(n)) == if n < 0x8000_0000 then Some(n) else None
    ensures ParseI32("-" + FormatNat(n)) == if n <= 0x8000_0000 then Some(-(n as int)) else None
  {
    var f := FormatNat(n);
    FormatNatValue(n);
    assert IsDigit(f[0]) && f[0] != '+' && f[0] != '-' && f[0..] == f;
    var neg := "-" + f;
    assert neg[0] == '-' && |neg| > 1 && neg[1..] == f;
  }

  /** Parsing the rendering of any `i32` gives it back. */
  lemma ParseFormatRoundTrip(x: i32)
    ensures ParseI32(FormatI32(x)) == Some(x)
  {
    ParseNatText(if x < 0 then -(x as int) else x);
  }

  /** Text with a letter in it is rejected. */
  lemma ParseRejectsLetters()
    ensures ParseI32("abc") == None
    ensures ParseI32("12a") == None
  {
  }

  /** The empty text and a lone sign are rejected. */
  lemma ParseRejectsEmpty()
    ensures ParseI32("") == None && ParseI32("-") == None && ParseI32("+") == None
  {
  }

  /** At the boundary: the rendering of 2^31, one past the largest `i32`, is
      rejected, and with a minus sign in front, the smallest `i32`, is
      accepted. */
  lemma ParseRange()
    ensures ParseI32(FormatNat(0x8000_0000)) == None
    ensures ParseI32("-" + FormatNat(0x8000_0000)) == Some(-0x8000_0000)
  {
    ParseNatText(0x8000_0000);
  }

  /** The three preset values the trainer puts in its text field parse to
      themselves. */
  lemma ParsePresets()
    ensures ParseI32("9990") == Some(9990)
    ensures ParseI32("8000") == Some(8000)
    ensures ParseI32("5000") == Some(5000)
  {
    ParseFormatRoundTrip(9990);
    ParseFormatRoundTrip(8000);
    ParseFormatRoundTrip(5000);
    assert FormatI32(9990) == "9990" && FormatI32(8000) == "8000" && FormatI32(5000) == "5000";
  }
}
