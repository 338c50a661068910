/**
 * The java.lang text operations the modelled components rely on: `startsWith`, `indexOf`,
 * `String.split` with a literal delimiter, `Integer.parseInt` and `new BigInteger(String)`.
 * Only ASCII decimal digits are modelled (Java also accepts other Unicode digits).
 */
module JavaText {
  import opened Wrappers

  const MinInt: int := -0x8000_0000
  const MaxInt: int := 0x7FFF_FFFF

  /** `s.startsWith(prefix)` */
  predicate StartsWith(s: string, prefix: string) {
    |prefix| <= |s| && s[..|prefix|] == prefix
  }

  lemma StartsWithChars(s: string, prefix: string)
    ensures StartsWith(s, prefix) <==> |prefix| <= |s| && forall k :: 0 <= k < |prefix| ==> s[k] == prefix[k]
  {
    if |prefix| <= |s| && forall k :: 0 <= k < |prefix| ==> s[k] == prefix[k] {
      assert s[..|prefix|] == prefix;
    }
  }

  /** `s.indexOf(c)`: the first index of `c` in `s`, or -1 when there is none. */
  function IndexOf(s: string, c: char): (r: int)
    ensures -1 <= r < |s|
    ensures r == -1 <==> c !in s
    ensures 0 <= r ==> s[r] == c && c !in s[..r]
  {
    if |s| == 0 then -1
    else if s[0] == c then 0
    else
      var k := IndexOf(s[1..], c);
      assert s == [s[0]] + s[1..];
      if k < 0 then -1
      else
        assert s[..k + 1] == [s[0]] + s[1..][..k];
        k + 1
  }

  /** `d` occurs in `s` starting at index `i`. */
  predicate OccursAt(s: string, d: string, i: int) {
    0 <= i && i + |d| <= |s| && s[i..i + |d|] == d
  }

  lemma {:induction false} OccursShift(s: string, d: string, j: int)
    requires |s| > 0 && 1 <= j
    ensures OccursAt(s, d, j) <==> OccursAt(s[1..], d, j - 1)
  {
    if j + |d| <= |s| {
      assert s[1..][j - 1..j - 1 + |d|] == s[j..j + |d|];
    }
  }

  /** The index of the leftmost occurrence of the non-empty text `d` in `s`, or -1. */
  function Find(s: string, d: string): (r: int)
    requires |d| > 0
    ensures -1 <= r
    ensures 0 <= r ==> OccursAt(s, d, r)
    ensures forall j :: 0 <= j && (r < 0 || j < r) ==> !OccursAt(s, d, j)
    decreases |s|
  {
    if |s| < |d| then -1
    else if s[..|d|] == d then 0
    else
      var k := Find(s[1..], d);
      assert !OccursAt(s, d, 0);
      forall j | 1 <= j
        ensures OccursAt(s, d, j) <==> OccursAt(s[1..], d, j - 1)
      {
        OccursShift(s, d, j);
      }
      if k < 0 then -1 else k + 1
  }

  /** A character that does not occur in `s` is not found in it. */
  lemma AbsentCharNotFound(s: string, c: char)
    requires c !in s
    ensures Find(s, [c]) < 0
  {
    forall j | 0 <= j
      ensures !OccursAt(s, [c], j)
    {
      if j + 1 <= |s| {
        assert s[j..j + 1][0] == s[j];
      }
    }
  }

  /** The pieces of `s` between the leftmost non-overlapping occurrences of `d`. */
  function SplitAll(s: string, d: string): (r: seq<string>)
    requires |d| > 0
    ensures |r| >= 1
    decreases |s|
  {
    var k := Find(s, d);
    if k < 0 then [s] else [s[..k]] + SplitAll(s[k + |d|..], d)
  }

  /** `xs` without its trailing empty strings. */
  function DropTrailingEmpty(xs: seq<string>): (r: seq<string>)
    ensures r <= xs
    ensures |r| > 0 ==> r[|r| - 1] != ""
    ensures forall i :: |r| <= i < |xs| ==> xs[i] == ""
  {
    if |xs| == 0 then []
    else if xs[|xs| - 1] == "" then DropTrailingEmpty(xs[..|xs| - 1])
    else xs
  }

  /**
   * `s.split(d)` for a delimiter free of regular-expression metacharacters: the input
   * itself when `d` does not occur, otherwise the pieces without trailing empty strings.
   * No piece contains the delimiter, and only empty pieces are dropped from the end.
   */
  function Split(s: string, d: string): (r: seq<string>)
    requires |d| > 0
    ensures Find(s, d) < 0 ==> r == [s]
    ensures Find(s, d) >= 0 ==>
      && r <= SplitAll(s, d)
      && (forall i :: |r| <= i < |SplitAll(s, d)| ==> SplitAll(s, d)[i] == "")
      && (|r| > 0 ==> r[|r| - 1] != "")
    ensures forall i :: 0 <= i < |r| ==> Find(r[i], d) < 0
  {
    if Find(s, d) < 0 then [s]
    else
      SplitAllPieces(s, d);
      DropTrailingEmpty(SplitAll(s, d))
  }

  /** The strings of `xs` with `d` between consecutive ones. */
  function JoinWith(xs: seq<string>, d: string): string {
    if |xs| == 0 then ""
    else if |xs| == 1 then xs[0]
    else xs[0] + d + JoinWith(xs[1..], d)
  }

  lemma {:induction false} JoinWithCons(head: string, xs: seq<string>, d: string)
    requires |xs| > 0
    ensures JoinWith([head] + xs, d) == head + d + JoinWith(xs, d)
  {
    assert ([head] + xs)[1..] == xs;
  }

  /** Appending a last string adds one delimiter and that string. */
  lemma {:induction false} JoinWithSnoc(xs: seq<string>, x: string, d: string)
    requires |xs| > 0
    ensures JoinWith(xs + [x], d) == JoinWith(xs, d) + d + x
    decreases |xs|
  {
    if |xs| > 1 {
      assert (xs + [x])[1..] == xs[1..] + [x];
      JoinWithSnoc(xs[1..], x, d);
    }
  }

  /** Extending the last string extends the joined text at its end. */
  lemma {:induction false} JoinWithExtendLast(xs: seq<string>, x: string, y: string, d: string)
    ensures JoinWith(xs + [x + y], d) == JoinWith(xs + [x], d) + y
    decreases |xs|
  {
    if |xs| > 0 {
      assert (xs + [x + y])[1..] == xs[1..] + [x + y];
      assert (xs + [x])[1..] == xs[1..] + [x];
      JoinWithExtendLast(xs[1..], x, y, d);
    }
  }

  /** Splitting loses nothing: joining the pieces with the delimiter gives back the input. */
  lemma {:induction false} SplitAllJoin(s: string, d: string)
    requires |d| > 0
    ensures JoinWith(SplitAll(s, d), d) == s
    decreases |s|, 1
  {
    if Find(s, d) < 0 {
      SplitAllWhole(s, d);
    } else {
      SplitAllJoinStep(s, d);
    }
  }

  /** Without an occurrence of the delimiter the text is its own single piece. */
  lemma SplitAllWhole(s: string, d: string)
    requires |d| > 0 && Find(s, d) < 0
    ensures JoinWith(SplitAll(s, d), d) == s
  {
    assert SplitAll(s, d) == [s];
  }

  /** At the first occurrence of the delimiter: the first piece, the delimiter, then the rest joined back. */
  lemma {:induction false} SplitAllJoinStep(s: string, d: string)
    requires |d| > 0 && Find(s, d) >= 0
    ensures JoinWith(SplitAll(s, d), d) == s
    decreases |s|, 0
  {
    var k := Find(s, d);
    var rest := s[k + |d|..];
    SplitAllJoin(rest, d);
    var pieces := SplitAll(rest, d);
    JoinAround(s, d, k, pieces);
    assert SplitAll(s, d) == [s[..k]] + pieces;
  }

  lemma {:induction false} JoinAround(s: string, d: string, k: int, pieces: seq<string>)
    requires OccursAt(s, d, k)
    requires |pieces| > 0 && JoinWith(pieces, d) == s[k + |d|..]
    ensures JoinWith([s[..k]] + pieces, d) == s
  {
    JoinWithCons(s[..k], pieces, d);
    SplitAround(s, d, k);
  }

  lemma {:induction false} SplitAround(s: string, d: string, k: int)
    requires OccursAt(s, d, k)
    ensures s == s[..k] + d + s[k + |d|..]
  {
    assert s == s[..k] + s[k..k + |d|] + s[k + |d|..];
  }

  /** No piece of a split contains the delimiter. */
  lemma {:induction false} SplitAllPieces(s: string, d: string)
    requires |d| > 0
    ensures forall i :: 0 <= i < |SplitAll(s, d)| ==> Find(SplitAll(s, d)[i], d) < 0
    decreases |s|
  {
    var k := Find(s, d);
    if k >= 0 {
      var rest := s[k + |d|..];
      SplitAllPieces(rest, d);
      var head := s[..k];
      var f := Find(head, d);
      if f >= 0 {
        assert head[f..f + |d|] == s[f..f + |d|];
        assert OccursAt(s, d, f);
        assert false;
      }
      assert SplitAll(s, d) == [head] + SplitAll(rest, d);
    }
  }

  predicate IsDigit(c: char) {
    '0' <= c <= '9'
  }

  predicate AllDigits(s: string) {
    forall i :: 0 <= i < |s| ==> IsDigit(s[i])
  }

  /** The value of a string of decimal digits, most significant first. */
  function DigitsValue(s: string): nat
    requires AllDigits(s)
  {
    if |s| == 0 then 0
    else DigitsValue(s[..|s| - 1]) * 10 + (s[|s| - 1] as int - '0' as int)
  }

  /**
   * `new BigInteger(s)`: an optional sign followed by one or more decimal digits, of any
   * size; anything else is a NumberFormatException. A negative value needs the minus sign.
   */
  function ParseBigInteger(s: string): (r: Option<int>)
    ensures r.Some? <==>
      || (|s| > 0 && AllDigits(s))
      || (|s| > 1 && (s[0] == '-' || s[0] == '+') && AllDigits(s[1..]))
    ensures r.Some? && AllDigits(s) ==> r.value == DigitsValue(s)
    ensures r.Some? && (s[0] == '-' || s[0] == '+') ==>
      r.value == (if s[0] == '-' then -1 else 1) * DigitsValue(s[1..])
    ensures r.Some? && r.value < 0 ==> s[0] == '-'
  {
    if |s| > 0 && (s[0] == '-' || s[0] == '+') then
      if |s| > 1 && AllDigits(s[1..]) then
        var v: int := DigitsValue(s[1..]);
        Some(if s[0] == '-' then -v else v)
      else None
    else if |s| > 0 && AllDigits(s) then Some(DigitsValue(s))
    else None
  }

  /**
   * `Integer.parseInt(s)`: the same syntax as `BigInteger`, and the value must fit in 32 bits.
   * It succeeds exactly when the BigInteger parse succeeds with a 32-bit value, giving that value.
   */
  function ParseInt(s: string): (r: Option<int>)
    ensures r.Some? ==> MinInt <= r.value <= MaxInt
    ensures r.Some? <==> ParseBigInteger(s).Some? && MinInt <= ParseBigInteger(s).value <= MaxInt
    ensures r.Some? ==> ParseBigInteger(s) == r
  {
    match ParseBigInteger(s)
    case Some(v) => if MinInt <= v <= MaxInt then Some(v) else None
    case None => None
  }

  /** The decimal digits of `n` without leading zeros (`Integer.toString` of a non-negative value). */
  function DecimalString(n: nat): string {
    if n < 10 then [('0' as int + n) as char]
    else DecimalString(n / 10) + [('0' as int + n % 10) as char]
  }

  /** `Integer.toString(n)` */
  function IntToString(n: int): string {
    if n < 0 then "-" + DecimalString(-n) else DecimalString(n)
  }

  lemma {:induction false} DecimalStringDigits(n: nat)
    ensures |DecimalString(n)| > 0 && AllDigits(DecimalString(n))
    ensures DigitsValue(DecimalString(n)) == n
  {
    var s := DecimalString(n);
    if n >= 10 {
      DecimalStringDigits(n / 10);
      assert s[..|s| - 1] == DecimalString(n / 10);
    }
  }

  /** Printing a 32-bit value and parsing it back gives the value again. */
  lemma ParseIntRoundTrip(n: int)
    requires MinInt <= n <= MaxInt
    ensures ParseInt(IntToString(n)) == Some(n)
  {
    ParseBigIntegerRoundTrip(n);
  }

  /** Printing any integer and parsing it back as a BigInteger gives the value again. */
  lemma ParseBigIntegerRoundTrip(n: int)
    ensures ParseBigInteger(IntToString(n)) == Some(n)
  {
    var s := IntToString(n);
    if n < 0 {
      var d := DecimalString(-n);
      DecimalStringDigits(-n);
      assert s == "-" + d;
      assert s[0] == '-' && s[1..] == d;
      assert ParseBigInteger(s) == Some(n);
    } else {
      DecimalStringDigits(n);
      assert IsDigit(s[0]);
      assert ParseBigInteger(s) == Some(n);
    }
  }
}
