// An input std::stringstream over a text, as the decoder uses it: integer
// extraction with `>>`, `peek()` and `ignore()`. The behaviour is the
// standard one: each operation first checks that the stream is good and,
// if not, sets failbit and does nothing; `>>` skips white space, then
// reads an optional sign and the longest run of decimal digits, stores 0
// and sets failbit when there is no digit, and sets eofbit when it reads
// up to the end of the text.
//
// The pure functions below give the meaning of each operation on a
// StreamState; the class StringStream performs the same operations step by
// step on a read position and is proved to agree with them.

module Streams {
  import opened Decimal

  /** isspace in the "C" locale: space, tab, newline, vertical tab, form feed, carriage return. */
  predicate IsSpace(c: char)
  {
    c == ' ' || '\t' <= c <= '\r'
  }

  /** The text after its leading white space. */
  function SkipSpaces(s: seq<char>): (r: seq<char>)
    ensures r == [] || !IsSpace(r[0])
  {
    if s != [] && IsSpace(s[0]) then SkipSpaces(s[1..]) else s
  }

  /** Skipping white space drops a prefix made only of white space and keeps the rest of the text. */
  lemma {:induction false} SkipSpacesDropsSpaces(s: seq<char>)
    ensures |SkipSpaces(s)| <= |s|
    ensures SkipSpaces(s) == s[|s| - |SkipSpaces(s)|..]
    ensures forall i :: 0 <= i < |s| - |SkipSpaces(s)| ==> IsSpace(s[i])
  {
    if s != [] && IsSpace(s[0]) {
      SkipSpacesDropsSpaces(s[1..]);
      assert s[1..][|s| - 1 - |SkipSpaces(s)|..] == s[|s| - |SkipSpaces(s)|..];
      forall i | 0 <= i < |s| - |SkipSpaces(s)|
        ensures IsSpace(s[i])
      {
        if i > 0 {
          assert s[i] == s[1..][i - 1];
        }
      }
    }
  }

  /** A white-space character at `pos` is skipped like everything after it. */
  lemma SkipSpacesStep(text: seq<char>, pos: nat)
    requires pos < |text| && IsSpace(text[pos])
    ensures SkipSpaces(text[pos..]) == SkipSpaces(text[pos + 1..])
  {
    assert text[pos..][1..] == text[pos + 1..];
  }

  /** A text that does not start with white space has none to skip. */
  lemma SkipSpacesOfNonSpace(s: seq<char>)
    requires |s| > 0 && !IsSpace(s[0])
    ensures SkipSpaces(s) == s
  {
  }

  /** What a reading stream holds: the unread text and its failbit and eofbit. */
  datatype StreamState = StreamState(rest: seq<char>, failbit: bool, eofbit: bool)
  {
    predicate Good()
    {
      !failbit && !eofbit
    }
  }

  /** A stream freshly constructed over a text. */
  function Open(s: seq<char>): StreamState
  {
    StreamState(s, false, false)
  }

  /** The traits' end-of-file value that peek() returns when there is no character. */
  const Eof: int := -1

  datatype NumberScan = NumberScan(ok: bool, value: int, rest: seq<char>)

  /** Reading a decimal int: an optional '+' or '-', then the longest run of digits; no digit is a failure with value 0. */
  function ScanNumber(s: seq<char>): (r: NumberScan)
    ensures |r.rest| <= |s|
    ensures r.ok ==> |r.rest| < |s|
    ensures !r.ok ==> r.value == 0
  {
    var body := SignlessBody(s);
    var k := DigitRun(body);
    if k == 0 then NumberScan(false, 0, body)
    else
      var magnitude := DigitsValue(body[..k]);
      NumberScan(true, if |s| > 0 && s[0] == '-' then -magnitude else magnitude, body[k..])
  }

  datatype Extracted = Extracted(state: StreamState, value: int)

  /** The text after an optional leading sign. */
  function SignlessBody(s: seq<char>): seq<char>
  {
    if |s| > 0 && (s[0] == '-' || s[0] == '+') then s[1..] else s
  }

  /** The stream after reading a number from the non-empty text `r`, and the value stored. */
  function ExtractNumber(r: seq<char>): Extracted
  {
    var num := ScanNumber(r);
    Extracted(StreamState(num.rest, !num.ok, num.rest == []), num.value)
  }

  /** `stream >> n`, where the int n holds `current` beforehand; the result carries n afterwards. */
  function ExtractInt(st: StreamState, current: int): Extracted
  {
    if !st.Good() then Extracted(st.(failbit := true), current)
    else
      var r := SkipSpaces(st.rest);
      if r == [] then Extracted(StreamState([], true, true), current)
      else ExtractNumber(r)
  }

  datatype Peeked = Peeked(state: StreamState, c: int)

  /** `stream.peek()`: the next character's code, without consuming it, or Eof. */
  function PeekAt(st: StreamState): Peeked
  {
    if !st.Good() then Peeked(st.(failbit := true), Eof)
    else if st.rest == [] then Peeked(st.(eofbit := true), Eof)
    else Peeked(st, st.rest[0] as int)
  }

  /** `stream.ignore()`: consume one character. */
  function IgnoreOne(st: StreamState): StreamState
  {
    if !st.Good() then st.(failbit := true)
    else if st.rest == [] then st.(eofbit := true)
    else st.(rest := st.rest[1..])
  }

  /** ScanNumber of text[p..], given where its sign ends (q) and where its digit run ends (r). */
  lemma ScanNumberAt(text: seq<char>, p: nat, q: nat, r: nat, magnitude: int)
    requires p < |text|
    requires q == if text[p] == '-' || text[p] == '+' then p + 1 else p
    requires q <= |text| && r == q + DigitRun(text[q..])
    requires magnitude == DigitsValue(text[q..r])
    ensures ScanNumber(text[p..]) ==
      if r == q then NumberScan(false, 0, text[q..])
      else NumberScan(true, if text[p] == '-' then -magnitude else magnitude, text[r..])
  {
    var s := text[p..];
    assert SignlessBody(s) == text[q..];
    var k := r - q;
    assert text[q..][..k] == text[q..r];
    assert text[q..][k..] == text[r..];
  }

  /** Past its sign, to_string(n) + tail is the digits of |n| followed by tail; the sign is '-' exactly for negative n. */
  lemma SignlessBodyOfDecimal(n: int, tail: seq<char>)
    ensures |IntToString(n) + tail| > 0
    ensures (IntToString(n) + tail)[0] == '-' <==> n < 0
    ensures SignlessBody(IntToString(n) + tail) == NatToDigits(if n < 0 then -n else n) + tail
  {
    var m := if n < 0 then -n else n;
    var ds := NatToDigits(m);
    var s := IntToString(n) + tail;
    NatToDigitsHead(m);
    if n < 0 {
      assert s == ['-'] + (ds + tail);
      assert s[0] == '-';
      assert s[1..] == ds + tail;
    } else {
      assert s == ds + tail;
      assert s[0] == ds[0];
    }
  }

  /** to_string(n), followed by something that is not a digit, is read back as n, stopping right after it. */
  lemma ScanNumberOfDecimal(n: int, tail: seq<char>)
    requires StopsDigits(tail)
    ensures ScanNumber(IntToString(n) + tail) == NumberScan(true, n, tail)
  {
    var m := if n < 0 then -n else n;
    SignlessBodyOfDecimal(n, tail);
    NatToDigitsThen(m, tail);
  }

  /** A good stream whose text starts with to_string(n), followed by something that is not a digit, yields n and stops right after it. */
  lemma ExtractIntOfDecimal(st: StreamState, n: int, tail: seq<char>, current: int)
    requires st.Good()
    requires st.rest == IntToString(n) + tail
    requires StopsDigits(tail)
    ensures ExtractInt(st, current) == Extracted(StreamState(tail, false, tail == []), n)
  {
    var m := if n < 0 then -n else n;
    NatToDigitsValue(m);
    var s := IntToString(n) + tail;
    assert s[0] == IntToString(n)[0];
    assert !IsSpace(s[0]);
    assert SkipSpaces(s) == s;
    ScanNumberOfDecimal(n, tail);
  }

  /** Once a stream has failed or reached its end, `>>` leaves the target unchanged and the stream failed. */
  lemma ExtractIntOnBadStream(st: StreamState, current: int)
    requires !st.Good()
    ensures ExtractInt(st, current).value == current
    ensures ExtractInt(st, current).state.failbit
    ensures ExtractInt(st, current).state.rest == st.rest
  {
  }

  /** A stream over a text, read from position `pos`. */
  class StringStream {
    const text: seq<char>
    var pos: nat
    var failbit: bool
    var eofbit: bool

    ghost predicate Valid()
      reads this
    {
      pos <= |text|
    }

    function State(): StreamState
      reads this
      requires Valid()
    {
      StreamState(text[pos..], failbit, eofbit)
    }

    constructor (s: seq<char>)
      ensures Valid() && State() == Open(s)
    {
      text := s;
      pos := 0;
      failbit, eofbit := false, false;
    }

    /** `>>` into an int that holds `current`; returns what the int holds afterwards. */
    method Extract(current: int) returns (v: int)
      requires Valid()
      modifies this
      ensures Valid() && Extracted(State(), v) == ExtractInt(old(State()), current)
    {
      if failbit || eofbit {
        failbit := true;
        v := current;
        return;
      }
      SkipWhiteSpace();
      if pos == |text| {
        failbit, eofbit := true, true;
        v := current;
        return;
      }
      v := ReadNumber();
    }

    /** The white-space skipping that starts `>>`. */
    method SkipWhiteSpace()
      requires Valid()
      modifies this`pos
      ensures Valid() && old(pos) <= pos
      ensures text[pos..] == SkipSpaces(text[old(pos)..])
    {
      ghost var start := pos;
      while pos < |text| && IsSpace(text[pos])
        invariant start <= pos <= |text|
        invariant SkipSpaces(text[start..]) == SkipSpaces(text[pos..])
      {
        SkipSpacesStep(text, pos);
        pos := pos + 1;
      }
      if pos < |text| {
        SkipSpacesOfNonSpace(text[pos..]);
      } else {
        assert text[pos..] == [];
      }
    }

    /** The number-reading step of `>>`, once white space is skipped and a character is available. */
    method ReadNumber() returns (v: int)
      requires Valid() && pos < |text|
      modifies this
      ensures Valid()
      ensures Extracted(State(), v) == ExtractNumber(old(text[pos..]))
    {
      ghost var start := pos;
      var negative := text[pos] == '-';
      if negative || text[pos] == '+' {
        pos := pos + 1;
      }
      var digitsStart := pos;
      var magnitude := ReadDigits();
      ScanNumberAt(text, start, digitsStart, pos, magnitude);
      failbit := pos == digitsStart;
      eofbit := pos == |text|;
      v := if failbit then 0 else if negative then -magnitude else magnitude;
    }

    /** Consume the longest run of digits at the read position and return its value. */
    method ReadDigits() returns (magnitude: int)
      requires Valid()
      modifies this`pos
      ensures Valid()
      ensures pos == old(pos) + DigitRun(text[old(pos)..])
      ensures magnitude == DigitsValue(text[old(pos)..pos])
    {
      ghost var start := pos;
      magnitude := 0;
      while pos < |text| && IsDigit(text[pos])
        invariant start <= pos <= |text|
        invariant DigitRun(text[start..]) == (pos - start) + DigitRun(text[pos..])
        invariant magnitude == DigitsValue(text[start..pos])
      {
        DigitsValueExtend(text, start, pos);
        DigitRunStep(text, pos);
        magnitude := magnitude * 10 + DigitValue(text[pos]);
        pos := pos + 1;
      }
    }

    /** `peek()`: the code of the next character, or Eof. */
    method Peek() returns (c: int)
      requires Valid()
      modifies this
      ensures Valid() && Peeked(State(), c) == PeekAt(old(State()))
    {
      if failbit || eofbit {
        failbit := true;
        c := Eof;
      } else if pos == |text| {
        eofbit := true;
        c := Eof;
      } else {
        c := text[pos] as int;
      }
    }

    /** `ignore()`: skip one character. */
    method Ignore()
      requires Valid()
      modifies this
      ensures Valid() && State() == IgnoreOne(old(State()))
    {
      if failbit || eofbit {
        failbit := true;
      } else if pos == |text| {
        eofbit := true;
      } else {
        assert text[pos..][1..] == text[pos + 1..];
        pos := pos + 1;
      }
    }
  }
}
