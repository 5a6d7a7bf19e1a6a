/**
 * The Python string built-ins the driver script relies on: `str.strip()`,
 * `str.split()` with no separator, `startswith`, ASCII case mapping and the
 * character classes `isalpha` / `isdigit`, plus decimal rendering of an int
 * as an f-string does it.
 */
module PyText {
  /**
   * `str.isspace()`: ASCII tab to carriage return, the four information
   * separators, space, and the Unicode spaces U+0085, U+00A0, U+1680,
   * U+2000 to U+200A, U+2028, U+2029, U+202F, U+205F and U+3000.
   */
  predicate IsSpace(c: char)
  {
    c == ' ' || '\t' <= c <= '\r' || '\U{001c}' <= c <= '\U{001f}' ||
    c == '\U{0085}' || c == '\U{00a0}' || c == '\U{1680}' || '\U{2000}' <= c <= '\U{200a}' ||
    c == '\U{2028}' || c == '\U{2029}' || c == '\U{202f}' || c == '\U{205f}' || c == '\U{3000}'
  }

  predicate IsAsciiUpper(c: char) { 'A' <= c <= 'Z' }
  predicate IsAsciiLower(c: char) { 'a' <= c <= 'z' }

  /** `isalpha` on ASCII letters. */
  predicate IsAlpha(c: char) { IsAsciiUpper(c) || IsAsciiLower(c) }

  /** `isdigit` on ASCII digits. */
  predicate IsDigit(c: char) { '0' <= c <= '9' }

  /** `str.lower()` on one ASCII character. */
  function Lower(c: char): (r: char)
    ensures IsAsciiUpper(c) ==> IsAsciiLower(r) && Upper(r) == c
    ensures !IsAsciiUpper(c) ==> r == c
  {
    if IsAsciiUpper(c) then (c as int + 32) as char else c
  }

  /** `str.upper()` on one ASCII character. */
  function Upper(c: char): (r: char)
    ensures IsAsciiLower(c) ==> IsAsciiUpper(r)
    ensures !IsAsciiLower(c) ==> r == c
  {
    if IsAsciiLower(c) then (c as int - 32) as char else c
  }

  lemma {:induction false} CaseRoundTrip(c: char)
    ensures IsAsciiLower(c) ==> Lower(Upper(c)) == c
    ensures Lower(Lower(c)) == Lower(c) && Upper(Upper(c)) == Upper(c)
  {
  }

  predicate StartsWith(s: string, prefix: string)
  {
    |prefix| <= |s| && s[..|prefix|] == prefix
  }

  /** Drops leading whitespace. */
  function StripLeft(s: string): (r: string)
    ensures |r| <= |s| && r == s[|s| - |r|..]
    ensures r != [] ==> !IsSpace(r[0])
    ensures forall i :: 0 <= i < |s| - |r| ==> IsSpace(s[i])
  {
    if s != [] && IsSpace(s[0]) then StripLeft(s[1..]) else s
  }

  /** Drops trailing whitespace. */
  function StripRight(s: string): (r: string)
    ensures |r| <= |s| && r == s[..|r|]
    ensures r != [] ==> !IsSpace(r[|r| - 1])
    ensures forall i :: |r| <= i < |s| ==> IsSpace(s[i])
  {
    if s != [] && IsSpace(s[|s| - 1]) then StripRight(s[..|s| - 1]) else s
  }

  /** `s.strip()`. */
  function Strip(s: string): (r: string)
    ensures r != [] ==> !IsSpace(r[0]) && !IsSpace(r[|r| - 1])
  {
    StripRight(StripLeft(s))
  }

  /** The length of the leading run of non-whitespace characters. */
  function WordLength(s: string): (n: nat)
    ensures n <= |s|
    ensures forall i :: 0 <= i < n ==> !IsSpace(s[i])
    ensures n < |s| ==> IsSpace(s[n])
  {
    if s == [] || IsSpace(s[0]) then 0 else 1 + WordLength(s[1..])
  }

  /** A nonempty run of non-whitespace characters. */
  predicate IsWord(w: string)
  {
    w != [] && forall i :: 0 <= i < |w| ==> !IsSpace(w[i])
  }

  /** `s.split()`: the maximal runs of non-whitespace characters, in order. */
  function Split(s: string): seq<string>
    decreases |s|
  {
    var t := StripLeft(s);
    if t == [] then []
    else
      var n := WordLength(t);
      [t[..n]] + Split(t[n..])
  }

  /** Every piece of a split is a word. */
  lemma {:induction false} SplitWords(s: string)
    ensures forall k :: 0 <= k < |Split(s)| ==> IsWord(Split(s)[k])
    decreases |s|
  {
    var t := StripLeft(s);
    if t != [] {
      var n := WordLength(t);
      var rest := Split(t[n..]);
      SplitWords(t[n..]);
      assert Split(s) == [t[..n]] + rest;
      forall k | 0 <= k < |Split(s)| ensures IsWord(Split(s)[k]) {
        if k > 0 {
          assert Split(s)[k] == rest[k - 1];
        }
      }
    }
  }

  /** Splitting ignores surrounding whitespace, so `line.strip().split()` is `line.split()`. */
  lemma {:induction false} SplitStripLeft(s: string)
    ensures Split(StripLeft(s)) == Split(s)
  {
    StripLeftIdempotent(s);
  }

  lemma {:induction false} StripLeftIdempotent(s: string)
    ensures StripLeft(StripLeft(s)) == StripLeft(s)
  {
    var t := StripLeft(s);
    if t != [] {
      assert !IsSpace(t[0]);
    }
  }

  /** A string with no leading whitespace splits into its first word, then the rest. */
  lemma {:induction false} SplitFirstWord(s: string)
    requires s != [] && !IsSpace(s[0])
    ensures Split(s) != [] && Split(s)[0] == s[..WordLength(s)]
  {
    assert StripLeft(s) == s;
  }

  /** The decimal digits of a natural number, most significant first. */
  function NatToString(n: nat): (r: string)
    ensures r != [] && forall i :: 0 <= i < |r| ==> IsDigit(r[i])
    decreases n
  {
    var d := ['0' + (n % 10) as char];
    if n < 10 then d else NatToString(n / 10) + d
  }

  /** `int(c)` for one decimal digit. */
  function DigitValue(c: char): (v: nat)
    requires IsDigit(c)
    ensures v < 10
  {
    c as int - '0' as int
  }

  /** The value of a string of decimal digits. */
  function DigitsValue(s: string): nat
    requires forall i :: 0 <= i < |s| ==> IsDigit(s[i])
  {
    if s == [] then 0 else 10 * DigitsValue(s[..|s| - 1]) + DigitValue(s[|s| - 1])
  }

  lemma {:induction false} NatToStringValue(n: nat)
    ensures DigitsValue(NatToString(n)) == n
    decreases n
  {
    var r := NatToString(n);
    if n >= 10 {
      NatToStringValue(n / 10);
      assert r[..|r| - 1] == NatToString(n / 10);
    }
  }

  /** `str(n)` / an f-string field: an optional '-' then the decimal digits. */
  function IntToString(n: int): string
  {
    if n < 0 then "-" + NatToString(-n) else NatToString(n)
  }
}
