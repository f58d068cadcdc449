// Decimal numerals: std::to_string for int (and QString::arg for an int,
// which writes the same text), and the digit-run arithmetic that the
// stream extraction in module Streams reads numbers with.

module Decimal {

  predicate IsDigit(c: char)
  {
    '0' <= c <= '9'
  }

  predicate AllDigits(s: seq<char>)
  {
    forall i :: 0 <= i < |s| ==> IsDigit(s[i])
  }

  /** The text does not continue with a digit, so a digit run before it stops there. */
  predicate StopsDigits(s: seq<char>)
  {
    s == [] || !IsDigit(s[0])
  }

  function DigitValue(c: char): int
  {
    c as int - '0' as int
  }

  function DigitChar(d: int): (c: char)
    requires 0 <= d < 10
    ensures IsDigit(c) && DigitValue(c) == d
  {
    ('0' as int + d) as char
  }

  /** The value of a run of decimal digits, most significant first. */
  function DigitsValue(ds: seq<char>): int
  {
    if |ds| == 0 then 0 else DigitsValue(ds[..|ds| - 1]) * 10 + DigitValue(ds[|ds| - 1])
  }

  /** Appending a digit multiplies the value by ten and adds the digit. */
  lemma DigitsValueSnoc(ds: seq<char>, c: char)
    ensures DigitsValue(ds + [c]) == DigitsValue(ds) * 10 + DigitValue(c)
  {
    assert (ds + [c])[..|ds|] == ds;
  }

  /** Extending a slice by the digit after it multiplies its value by ten and adds the digit. */
  lemma DigitsValueExtend(text: seq<char>, start: nat, end: nat)
    requires start <= end < |text|
    ensures DigitsValue(text[start..end + 1]) == DigitsValue(text[start..end]) * 10 + DigitValue(text[end])
  {
    assert text[start..end + 1] == text[start..end] + [text[end]];
    DigitsValueSnoc(text[start..end], text[end]);
  }

  /** The length of the longest prefix of `s` made of digits. */
  function DigitRun(s: seq<char>): (k: nat)
    ensures k <= |s|
  {
    if |s| == 0 || !IsDigit(s[0]) then 0 else 1 + DigitRun(s[1..])
  }

  /** The digit run is made of digits, and what follows it is not a digit. */
  lemma {:induction false} DigitRunIsMaximal(s: seq<char>)
    ensures AllDigits(s[..DigitRun(s)])
    ensures StopsDigits(s[DigitRun(s)..])
  {
    if |s| > 0 && IsDigit(s[0]) {
      var k := DigitRun(s);
      DigitRunIsMaximal(s[1..]);
      assert s[..k] == [s[0]] + s[1..][..k - 1];
      assert s[k..] == s[1..][k - 1..];
    }
  }

  /** The decimal digits of a natural number, without padding. */
  function NatToDigits(n: nat): string
  {
    if n < 10 then [DigitChar(n)] else NatToDigits(n / 10) + [DigitChar(n % 10)]
  }

  /** std::to_string(int): an optional minus sign, then the digits of the magnitude. */
  function IntToString(n: int): string
  {
    if n < 0 then "-" + NatToDigits(-n) else NatToDigits(n)
  }

  /** A digit at `pos` adds one to the digit run that starts after it. */
  lemma DigitRunStep(text: seq<char>, pos: nat)
    requires pos < |text| && IsDigit(text[pos])
    ensures DigitRun(text[pos..]) == 1 + DigitRun(text[pos + 1..])
  {
    assert text[pos..][1..] == text[pos + 1..];
  }

  /** The digits written for n are a non-empty digit run whose value is n. */
  lemma {:induction false} NatToDigitsValue(n: nat)
    ensures |NatToDigits(n)| >= 1
    ensures AllDigits(NatToDigits(n))
    ensures DigitsValue(NatToDigits(n)) == n
  {
    if n >= 10 {
      NatToDigitsValue(n / 10);
      var ds := NatToDigits(n);
      assert ds[..|ds| - 1] == NatToDigits(n / 10);
    }
  }

  /** A digit run followed by a text that does not start with a digit is read in full and no further. */
  lemma {:induction false} DigitRunOfDigitsThen(ds: seq<char>, rest: seq<char>)
    requires AllDigits(ds)
    requires StopsDigits(rest)
    ensures DigitRun(ds + rest) == |ds|
  {
    if |ds| > 0 {
      assert (ds + rest)[1..] == ds[1..] + rest;
      DigitRunOfDigitsThen(ds[1..], rest);
    }
  }

  /** Reading the digit run at the front of to_string(n) + rest recovers exactly the digits of |n|. */
  lemma NatToDigitsThen(n: nat, rest: seq<char>)
    requires StopsDigits(rest)
    ensures DigitRun(NatToDigits(n) + rest) == |NatToDigits(n)|
    ensures (NatToDigits(n) + rest)[..|NatToDigits(n)|] == NatToDigits(n)
    ensures (NatToDigits(n) + rest)[|NatToDigits(n)|..] == rest
    ensures DigitsValue(NatToDigits(n)) == n && |NatToDigits(n)| >= 1
  {
    NatToDigitsValue(n);
    DigitRunOfDigitsThen(NatToDigits(n), rest);
  }

  /** A non-negative number is written as digits only. */
  lemma IntToStringNonNegative(n: int)
    requires n >= 0
    ensures |IntToString(n)| >= 1 && AllDigits(IntToString(n))
  {
    NatToDigitsValue(n);
  }

  /** The digits of a natural number are at least one, and the first is a digit. */
  lemma NatToDigitsHead(n: nat)
    ensures |NatToDigits(n)| >= 1 && IsDigit(NatToDigits(n)[0])
  {
    NatToDigitsValue(n);
  }

  /** A numeral starts with a minus sign or a digit. */
  lemma IntToStringHead(n: int)
    ensures |IntToString(n)| >= 1
    ensures IntToString(n)[0] == '-' || IsDigit(IntToString(n)[0])
  {
    NatToDigitsValue(if n < 0 then -n else n);
  }

  /** Distinct numbers are written differently. */
  lemma IntToStringInjective(m: int, n: int)
    requires IntToString(m) == IntToString(n)
    ensures m == n
  {
    NatToDigitsValue(if m < 0 then -m else m);
    NatToDigitsValue(if n < 0 then -n else n);
    assert (IntToString(m)[0] == '-') == (m < 0);
    assert (IntToString(n)[0] == '-') == (n < 0);
    if m < 0 {
      assert IntToString(m)[1..] == NatToDigits(-m);
      assert IntToString(n)[1..] == NatToDigits(-n);
    }
  }
}
