/**
 * `parseParameters` of the SSH component
 * (kompics-daemon-launcher/src/main/java/se/sics/kompics/wan/master/ssh/SshComponent.java),
 * which splits a special command into its arguments. Text containing both kinds of quote
 * is refused; text with one kind is scanned character by character, quotes toggling a
 * "within quotes" flag and spaces outside quotes ending an argument; text without quotes
 * is split on single spaces.
 */
module SshParameters {
  import opened JavaText

  predicate IsQuote(c: char) {
    c == '"' || c == '\''
  }

  /** The scan's variables: the arguments so far, the quote flag and the argument being built. */
  datatype Scanner = Scanner(params: seq<string>, withinQuotes: bool, tmpBuffer: string)

  /**
   * One iteration of the scanning loop: a quote flips the flag and is dropped; a space
   * outside quotes ends the argument being built; any other character is kept.
   */
  function ScanChar(st: Scanner, c: char): (r: Scanner)
    ensures r.withinQuotes != st.withinQuotes <==> IsQuote(c)
    ensures r.params == st.params + [st.tmpBuffer] <==> c == ' ' && !st.withinQuotes
    ensures r.params == st.params <==> c != ' ' || st.withinQuotes
    ensures st.tmpBuffer <= r.tmpBuffer || r.tmpBuffer == ""
    ensures |r.tmpBuffer| <= |st.tmpBuffer| + 1 && (IsQuote(c) ==> r.tmpBuffer == st.tmpBuffer)
  {
    if IsQuote(c) then st.(withinQuotes := !st.withinQuotes)
    else if c == ' ' && !st.withinQuotes then Scanner(st.params + [st.tmpBuffer], st.withinQuotes, "")
    else st.(tmpBuffer := st.tmpBuffer + [c])
  }

  /** The scanner after the characters of `s`; each character adds at most one argument or one character. */
  function Scan(s: string): (r: Scanner)
    ensures |r.params| + |r.tmpBuffer| <= |s|
    decreases |s|
  {
    if |s| == 0 then Scanner([], false, "") else ScanChar(Scan(s[..|s| - 1]), s[|s| - 1])
  }

  /**
   * The arguments of the quoted branch: the last argument is kept only if non-empty. There
   * is one argument per space outside quotes, and one more when text follows the last one.
   */
  function QuotedArguments(s: string): (r: seq<string>)
    ensures |r| == OutsideSpaces(s) + (if |Scan(s).tmpBuffer| > 0 then 1 else 0)
    ensures |r| <= |s|
  {
    ScanSeparators(s);
    var st := Scan(s);
    if |st.tmpBuffer| > 0 then st.params + [st.tmpBuffer] else st.params
  }

  /**
   * What `parseParameters` returns: nothing for text with both kinds of quote, quote-free
   * arguments for text with one kind, and the space-separated pieces otherwise.
   */
  function Parameters(s: string): (r: seq<string>)
    ensures '"' in s && '\'' in s ==> r == []
    ensures ('"' in s) != ('\'' in s) ==> forall j :: 0 <= j < |r| ==> NoQuotes(r[j])
  {
    QuotedArgumentsHaveNoQuotes(s);
    if '"' in s && '\'' in s then []
    else if '"' in s || '\'' in s then QuotedArguments(s)
    else Split(s, " ")
  }

  /** `parseParameters` */
  method ParseParameters(parameters: string) returns (split: seq<string>)
    ensures split == Parameters(parameters)
    ensures '"' in parameters && '\'' in parameters ==> split == []
  {
    if '"' in parameters && '\'' in parameters {
      return [];
    }
    if '"' in parameters || '\'' in parameters {
      var params: seq<string> := [];
      var withinQuotes := false;
      var tmpBuffer := "";
      for i := 0 to |parameters|
        invariant Scanner(params, withinQuotes, tmpBuffer) == Scan(parameters[..i])
      {
        var c := parameters[i];
        assert parameters[..i + 1][..i] == parameters[..i];
        if c == '"' || c == '\'' {
          withinQuotes := !withinQuotes;
        } else if c == ' ' && !withinQuotes {
          params := params + [tmpBuffer];
          tmpBuffer := "";
        } else {
          tmpBuffer := tmpBuffer + [c];
        }
      }
      assert parameters[..|parameters|] == parameters;
      if |tmpBuffer| > 0 {
        params := params + [tmpBuffer];
      }
      split := params;
    } else {
      split := Split(parameters, " ");
    }
  }

  // ---------------------------------------------------------------------------------
  // Reference descriptions of the quoted scan

  /** `s` without its quote characters. */
  function Unquoted(s: string): string
    decreases |s|
  {
    if |s| == 0 then ""
    else Unquoted(s[..|s| - 1]) + (if IsQuote(s[|s| - 1]) then "" else [s[|s| - 1]])
  }

  function QuoteCount(s: string): nat
    decreases |s|
  {
    if |s| == 0 then 0 else QuoteCount(s[..|s| - 1]) + (if IsQuote(s[|s| - 1]) then 1 else 0)
  }

  /** The number of spaces in `s` preceded by an even number of quotes. */
  function OutsideSpaces(s: string): nat
    decreases |s|
  {
    if |s| == 0 then 0
    else
      var prefix := s[..|s| - 1];
      OutsideSpaces(prefix) + (if s[|s| - 1] == ' ' && QuoteCount(prefix) % 2 == 0 then 1 else 0)
  }

  predicate NoQuotes(t: string) {
    forall i :: 0 <= i < |t| ==> !IsQuote(t[i])
  }

  /** The scan is within quotes exactly when it has passed an odd number of quotes. */
  lemma {:induction false} ScanTracksQuotes(s: string)
    ensures Scan(s).withinQuotes <==> QuoteCount(s) % 2 == 1
    decreases |s|
  {
    if |s| > 0 {
      ScanTracksQuotes(s[..|s| - 1]);
    }
  }

  /** An argument ends at exactly the spaces outside quotes. */
  lemma {:induction false} ScanSeparators(s: string)
    ensures |Scan(s).params| == OutsideSpaces(s)
    decreases |s|
  {
    if |s| > 0 {
      ScanSeparators(s[..|s| - 1]);
      ScanTracksQuotes(s[..|s| - 1]);
    }
  }

  /** No argument, finished or being built, holds a quote character. */
  lemma {:induction false} ScanTokensHaveNoQuotes(s: string)
    ensures forall j :: 0 <= j < |Scan(s).params| ==> NoQuotes(Scan(s).params[j])
    ensures NoQuotes(Scan(s).tmpBuffer)
    decreases |s|
  {
    if |s| > 0 {
      ScanTokensHaveNoQuotes(s[..|s| - 1]);
    }
  }

  /**
   * The scan drops the quotes and nothing else: the arguments, the last one included even
   * when empty, joined with single spaces give back the text without its quotes.
   */
  lemma {:induction false} ScanLosesOnlyQuotes(s: string)
    ensures JoinWith(Scan(s).params + [Scan(s).tmpBuffer], " ") == Unquoted(s)
    decreases |s|
  {
    if |s| > 0 {
      var prefix := s[..|s| - 1];
      var c := s[|s| - 1];
      var st := Scan(prefix);
      ScanLosesOnlyQuotes(prefix);
      if IsQuote(c) {
      } else if c == ' ' && !st.withinQuotes {
        JoinWithSnoc(st.params + [st.tmpBuffer], "", " ");
        assert st.params + [st.tmpBuffer] + [""] == (st.params + [st.tmpBuffer]) + [""];
      } else {
        JoinWithExtendLast(st.params, st.tmpBuffer, [c], " ");
      }
    }
  }

  /** In the quoted branch no argument contains a quote. */
  lemma QuotedArgumentsHaveNoQuotes(s: string)
    ensures forall j :: 0 <= j < |QuotedArguments(s)| ==> NoQuotes(QuotedArguments(s)[j])
  {
    ScanTokensHaveNoQuotes(s);
  }

  lemma {:induction false} MatchHasSpace(s: string)
    requires Find(s, " ") >= 0
    ensures ' ' in s
  {
    var k := Find(s, " ");
    assert s[k..k + 1][0] == ' ';
  }

  lemma {:induction false} NoMatchNoSpace(t: string)
    requires Find(t, " ") < 0
    ensures ' ' !in t
  {
    if ' ' in t {
      var k :| 0 <= k < |t| && t[k] == ' ';
      assert OccursAt(t, " ", k);
    }
  }

  /** Without quotes, no argument contains a space, and text without spaces is its own single argument. */
  lemma {:induction false} UnquotedSplitsOnSpaces(s: string)
    requires '"' !in s && '\'' !in s
    ensures forall j :: 0 <= j < |Parameters(s)| ==> ' ' !in Parameters(s)[j]
    ensures ' ' !in s ==> Parameters(s) == [s]
  {
    if Find(s, " ") >= 0 {
      MatchHasSpace(s);
      SplitAllPieces(s, " ");
      forall j | 0 <= j < |Parameters(s)|
        ensures ' ' !in Parameters(s)[j]
      {
        NoMatchNoSpace(SplitAll(s, " ")[j]);
      }
    } else {
      NoMatchNoSpace(s);
    }
  }
}
