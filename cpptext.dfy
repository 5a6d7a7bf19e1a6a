/**
 * The C++ library text operations the engine relies on: `std::stoi`, and
 * extraction of a word or an integer from a `std::stringstream` with
 * `operator>>`, which skips white space, stops at the first character that
 * cannot continue the item, and sets the fail state when nothing could be
 * read (after which every further extraction fails).
 */
module CppText {
  import opened Wrappers
  import opened PyText

  const INT_MIN: int := -0x8000_0000
  const INT_MAX: int := 0x7fff_ffff

  /** `isspace` in the "C" locale. */
  predicate CSpace(c: char)
  {
    c == ' ' || '\t' <= c <= '\r'
  }

  /** Drops leading C white space. */
  function SkipSpace(s: string): (r: string)
    ensures |r| <= |s| && r == s[|s| - |r|..]
    ensures r != [] ==> !CSpace(r[0])
  {
    if s != [] && CSpace(s[0]) then SkipSpace(s[1..]) else s
  }

  /** The length of the leading run of decimal digits. */
  function DigitRun(s: string): (n: nat)
    ensures n <= |s|
    ensures forall i :: 0 <= i < n ==> IsDigit(s[i])
    ensures n < |s| ==> !IsDigit(s[n])
  {
    if s == [] || !IsDigit(s[0]) then 0 else 1 + DigitRun(s[1..])
  }

  /** The length of the leading run of non-space characters. */
  function WordRun(s: string): (n: nat)
    ensures n <= |s|
    ensures forall i :: 0 <= i < n ==> !CSpace(s[i])
    ensures n < |s| ==> CSpace(s[n])
  {
    if s == [] || CSpace(s[0]) then 0 else 1 + WordRun(s[1..])
  }

  /** A leading sign and digits, after white space: its sign, its digits, and what follows. */
  datatype Numeral = Numeral(negative: bool, digits: string, rest: string)

  function ScanNumeral(s: string): (n: Numeral)
    ensures forall i :: 0 <= i < |n.digits| ==> IsDigit(n.digits[i])
  {
    var t := SkipSpace(s);
    var negative := t != [] && t[0] == '-';
    var u := if t != [] && (t[0] == '-' || t[0] == '+') then t[1..] else t;
    var k := DigitRun(u);
    Numeral(negative, DigitsOf(u), u[k..])
  }

  /** The leading digits of u. */
  function DigitsOf(u: string): (d: string)
    ensures d == u[..DigitRun(u)]
    ensures forall i :: 0 <= i < |d| ==> IsDigit(d[i])
  {
    var k := DigitRun(u);
    assert forall i :: 0 <= i < k ==> u[..k][i] == u[i];
    u[..k]
  }

  function NumeralValue(n: Numeral): int
    requires forall i :: 0 <= i < |n.digits| ==> IsDigit(n.digits[i])
  {
    var magnitude: int := DigitsValue(n.digits);
    if n.negative then -magnitude else magnitude
  }

  datatype StoiError = InvalidArgument | OutOfRange

  /** `std::stoi`: the leading integer of s, an error when there is none or it does not fit an int. */
  function Stoi(s: string): (r: Result<int, StoiError>)
    ensures r.Success? ==> INT_MIN <= r.value <= INT_MAX
    ensures r == Failure(InvalidArgument) <==> ScanNumeral(s).digits == []
  {
    var n := ScanNumeral(s);
    if n.digits == [] then Failure(InvalidArgument)
    else
      var v := NumeralValue(n);
      if v < INT_MIN || v > INT_MAX then Failure(OutOfRange) else Success(v)
  }

  /** Digits followed by a space or nothing scan as a non-negative numeral. */
  lemma {:induction false} ScanDigits(digits: string, tail: string)
    requires digits != [] && forall i :: 0 <= i < |digits| ==> IsDigit(digits[i])
    requires tail == [] || CSpace(tail[0])
    ensures SkipSpace(digits + tail) == digits + tail
    ensures ScanNumeral(digits + tail) == Numeral(false, digits, tail)
  {
    DigitsThenStop(digits, tail);
    var s := digits + tail;
    assert s[0] == digits[0];
  }

  /** A minus sign, digits, then a space or nothing scan as a negative numeral. */
  lemma {:induction false} ScanNegativeDigits(digits: string, tail: string)
    requires digits != [] && forall i :: 0 <= i < |digits| ==> IsDigit(digits[i])
    requires tail == [] || CSpace(tail[0])
    ensures SkipSpace("-" + digits + tail) == "-" + digits + tail
    ensures ScanNumeral("-" + digits + tail) == Numeral(true, digits, tail)
  {
    DigitsThenStop(digits, tail);
    var u := digits + tail;
    var s := "-" + digits + tail;
    assert s == ['-'] + u;
    assert s[0] == '-' && s[1..] == u;
    assert !CSpace(s[0]);
    assert SkipSpace(s) == s;
    assert DigitRun(u) == |digits|;
  }

  /** The decimal rendering of an int, followed by a space or nothing, scans as that int. */
  lemma {:induction false} ScanRendered(v: int, tail: string)
    requires tail == [] || CSpace(tail[0])
    ensures SkipSpace(IntToString(v) + tail) == IntToString(v) + tail
    ensures var n := ScanNumeral(IntToString(v) + tail); n.rest == tail && n.digits != [] && NumeralValue(n) == v
  {
    var a: nat := if v < 0 then -v else v;
    var digits := NatToString(a);
    NatToStringValue(a);
    if v < 0 {
      ScanNegativeDigits(digits, tail);
    } else {
      ScanDigits(digits, tail);
    }
  }

  /** `std::stoi` reads back the decimal rendering of any int. */
  lemma {:induction false} StoiRoundTrip(v: int)
    requires INT_MIN <= v <= INT_MAX
    ensures Stoi(IntToString(v)) == Success(v)
  {
    ScanRendered(v, []);
    assert IntToString(v) + [] == IntToString(v);
  }

  lemma {:induction false} AllDigitsRun(s: string)
    requires forall i :: 0 <= i < |s| ==> IsDigit(s[i])
    ensures DigitRun(s) == |s|
    decreases |s|
  {
    if s != [] {
      AllDigitsRun(s[1..]);
    }
  }

  /** The unread part of a string stream and whether it is still usable. */
  datatype Stream = Stream(rest: string, good: bool)

  function StringStream(line: string): Stream
  {
    Stream(line, true)
  }

  /** `ss >> word`: the next run of non-space characters, or failure at end of input. */
  function ReadWord(st: Stream): (r: (Option<string>, Stream))
    ensures r.0.Some? ==> r.1.good && r.0.value != [] && forall i :: 0 <= i < |r.0.value| ==> !CSpace(r.0.value[i])
    ensures r.0.None? ==> !r.1.good
    ensures |r.1.rest| <= |st.rest|
    ensures r.0.Some? ==> |r.1.rest| < |st.rest|
  {
    if !st.good then (None, st)
    else
      var t := SkipSpace(st.rest);
      if t == [] then (None, Stream([], false))
      else
        var n := WordRun(t);
        (Some(t[..n]), Stream(t[n..], true))
  }

  /**
   * `ss >> x` for an integer x. None: x keeps its value (the stream had
   * already failed or held only white space). Otherwise the value written:
   * the number read, 0 when no digits follow, or the nearest limit on
   * overflow; the latter two leave the stream failed.
   */
  function ReadInt(st: Stream, lo: int, hi: int): (r: (Option<int>, Stream))
    requires lo <= 0 <= hi
    ensures r.0.Some? ==> lo <= r.0.value <= hi
    ensures r.1.good ==> st.good && r.0.Some?
    ensures |r.1.rest| <= |st.rest|
  {
    if !st.good then (None, st)
    else
      var t := SkipSpace(st.rest);
      if t == [] then (None, Stream([], false))
      else
        var n := ScanNumeral(t);
        if n.digits == [] then (Some(0), Stream(t, false))
        else
          var v := NumeralValue(n);
          if v < lo then (Some(lo), Stream(n.rest, false))
          else if v > hi then (Some(hi), Stream(n.rest, false))
          else (Some(v), Stream(n.rest, true))
  }

  /** Leading white space makes no difference to what `>>` reads. */
  lemma {:induction false} SkipLead(lead: string, x: string)
    requires forall i :: 0 <= i < |lead| ==> CSpace(lead[i])
    ensures SkipSpace(lead + x) == SkipSpace(x)
    ensures ReadWord(Stream(lead + x, true)) == ReadWord(Stream(x, true))
    decreases |lead|
  {
    if lead != [] {
      assert (lead + x)[1..] == lead[1..] + x;
      SkipLead(lead[1..], x);
    } else {
      assert lead + x == x;
    }
  }

  /** Reading an integer from its own decimal rendering, after any white space, yields it and consumes it. */
  lemma {:induction false} ReadIntRendered(lead: string, v: int, lo: int, hi: int, tail: string)
    requires forall i :: 0 <= i < |lead| ==> CSpace(lead[i])
    requires lo <= 0 <= hi && lo <= v <= hi
    requires tail == [] || CSpace(tail[0])
    ensures ReadInt(Stream(lead + (IntToString(v) + tail), true), lo, hi) == (Some(v), Stream(tail, true))
  {
    var s := IntToString(v) + tail;
    SkipLead(lead, s);
    ScanRendered(v, tail);
    ReadIntAt(lead + s, lo, hi);
  }

  /** `>>` into an integer when digits follow the white space and their value is in range. */
  lemma {:induction false} ReadIntAt(x: string, lo: int, hi: int)
    requires lo <= 0 <= hi && SkipSpace(x) != []
    requires var n := ScanNumeral(SkipSpace(x)); n.digits != [] && lo <= NumeralValue(n) <= hi
    ensures var n := ScanNumeral(SkipSpace(x));
      ReadInt(Stream(x, true), lo, hi) == (Some(NumeralValue(n)), Stream(n.rest, true))
  {
  }

  lemma {:induction false} DigitsThenStop(s: string, tail: string)
    requires forall i :: 0 <= i < |s| ==> IsDigit(s[i])
    requires tail == [] || CSpace(tail[0])
    ensures DigitRun(s + tail) == |s|
    ensures (s + tail)[..|s|] == s && (s + tail)[|s|..] == tail
    decreases |s|
  {
    if s != [] {
      assert (s + tail)[1..] == s[1..] + tail;
      DigitsThenStop(s[1..], tail);
    } else {
      assert s + tail == tail;
    }
  }
}
