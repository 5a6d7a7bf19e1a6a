/**
 * Score reporting (src/score.cpp): recognising mate scores, the number of
 * moves to mate, and the `cp` / `mate` strings sent after `info score`.
 */
module Score {
  import opened Types
  import opened Wrappers
  import opened PyText
  import opened CppText

  const VALUE_ZERO: int := 0
  const VALUE_DRAW: int := 0
  const VALUE_MATE: int := 32000
  const VALUE_INFINITE: int := 32001
  const VALUE_NONE: int := 32002
  const VALUE_MATE_IN_MAX_PLY: int := VALUE_MATE - 2 * MAX_PLY
  const VALUE_MATED_IN_MAX_PLY: int := -VALUE_MATE + 2 * MAX_PLY

  /** C++ integer division by a positive divisor: the quotient is truncated toward zero. */
  function TruncDiv(a: int, b: int): (q: int)
    requires b > 0
    ensures a >= 0 ==> 0 <= q && 0 <= a - q * b < b
    ensures a < 0 ==> q <= 0 && -b < a - q * b <= 0
  {
    if a >= 0 then a / b else -((-a) / b)
  }

  /** A value counts as a mate score when its magnitude exceeds 31744. */
  predicate IsMate(v: int)
  {
    Abs(v) > VALUE_MATE_IN_MAX_PLY
  }

  lemma MateThreshold()
    ensures VALUE_MATE_IN_MAX_PLY == 31744 && VALUE_MATED_IN_MAX_PLY == -31744
  {
  }

  /**
   * Moves to mate. A score VALUE_MATE - n means mate in n plies and reports
   * ceil(n / 2) moves: the least number of own moves covering n plies.
   * Being mated in n plies, -VALUE_MATE + n, reports -ceil(n / 2). Beyond
   * VALUE_MATE on either side (VALUE_INFINITE, VALUE_NONE) the C++ division
   * truncates toward zero instead, which halves the excess rounding down.
   */
  function MateIn(v: int): (moves: int)
    ensures 0 < v <= VALUE_MATE ==> var n := VALUE_MATE - v; n <= 2 * moves <= n + 1
    ensures -VALUE_MATE <= v <= 0 ==> var n := VALUE_MATE + v; n <= -2 * moves <= n + 1
    ensures v > VALUE_MATE ==> var n := v - VALUE_MATE - 1; n - 1 <= -2 * moves <= n
    ensures v < -VALUE_MATE ==> var n := -v - VALUE_MATE - 1; n - 1 <= 2 * moves <= n
    ensures IsMate(v) && 0 < v <= VALUE_MATE ==> 0 <= moves <= MAX_PLY
    ensures IsMate(v) && -VALUE_MATE <= v < 0 ==> -MAX_PLY <= moves <= 0
  {
    if v > 0 then TruncDiv(VALUE_MATE - v + 1, 2) else TruncDiv(-(VALUE_MATE + v + 1), 2)
  }

  /**
   * The `score` field of an info line: `mate N` for mate values, `cp V`
   * otherwise. The keyword tells the two apart, and the number after it
   * reads back (as std::stoi reads it) as the moves to mate or the value.
   */
  function ToUci(v: int): (s: string)
    ensures StartsWith(s, "mate ") <==> IsMate(v)
    ensures StartsWith(s, "cp ") <==> !IsMate(v)
    ensures IsMate(v) && INT_MIN <= MateIn(v) <= INT_MAX ==> Stoi(s[5..]) == Success(MateIn(v))
    ensures !IsMate(v) && INT_MIN <= v <= INT_MAX ==> Stoi(s[3..]) == Success(v)
  {
    if IsMate(v) then
      Labelled("mate ", MateIn(v));
      TagsDiffer(IntToString(MateIn(v)));
      "mate " + IntToString(MateIn(v))
    else
      Labelled("cp ", v);
      TagsDiffer(IntToString(v));
      "cp " + IntToString(v)
  }

  /** A tag followed by a number: the tag is its prefix, and the rest reads back as the number. */
  lemma Labelled(tag: string, n: int)
    ensures StartsWith(tag + IntToString(n), tag)
    ensures (tag + IntToString(n))[|tag|..] == IntToString(n)
    ensures INT_MIN <= n <= INT_MAX ==> Stoi((tag + IntToString(n))[|tag|..]) == Success(n)
  {
    var s := tag + IntToString(n);
    assert s[..|tag|] == tag;
    assert s[|tag|..] == IntToString(n);
    if INT_MIN <= n <= INT_MAX {
      StoiRoundTrip(n);
    }
  }

  /** Neither keyword is a prefix of a line that starts with the other. */
  lemma TagsDiffer(x: string)
    ensures !StartsWith("mate " + x, "cp ") && !StartsWith("cp " + x, "mate ")
  {
    assert ("mate " + x)[0] == 'm';
    assert ("cp " + x)[0] == 'c';
  }

  /** `normalize` ignores the ply and returns the value. */
  function Normalize(v: int, ply: int): (r: int)
    ensures r == v
  {
    v
  }

  /** `contempt` reads the Contempt option but returns the value unchanged. */
  function Contempt(v: int, us: Color, contemptOption: int): (r: int)
    ensures r == v
  {
    v
  }
}
