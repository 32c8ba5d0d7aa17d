/** The shell command line built from an argument list: every token is wrapped
    in single quotes and the quoted tokens are joined with one space, so
    ["php", "-i"] becomes 'php' '-i'. */
module CommandLine {
  import opened Wrappers

  const Quote: char := '\''

  /** The token carries no single quote. */
  predicate NoQuote(t: string)
  {
    forall i :: 0 <= i < |t| ==> t[i] != Quote
  }

  /** No token carries a single quote of its own. */
  predicate QuoteFree(tokens: seq<string>)
  {
    forall i :: 0 <= i < |tokens| ==> NoQuote(tokens[i])
  }

  /** A token with each embedded quote written as '\'' (close, escaped quote,
      reopen); a token without quotes is left as it is. */
  function EscapeQuotes(t: string): (e: string)
    ensures NoQuote(t) ==> e == t
  {
    if t == [] then []
    else if t[0] == Quote then [Quote, '\\', Quote, Quote] + EscapeQuotes(t[1..])
    else [t[0]] + EscapeQuotes(t[1..])
  }

  /** One token as the shell should read it literally. */
  function QuoteToken(t: string): (q: string)
    ensures NoQuote(t) ==> q == [Quote] + t + [Quote]
  {
    [Quote] + EscapeQuotes(t) + [Quote]
  }

  /** The escaped command line for an argument list. */
  function EscapedCommandLine(tokens: seq<string>): (s: string)
    ensures tokens != [] ==> |s| >= 2 && s[0] == Quote
    ensures tokens == [] ==> s == []
  {
    if |tokens| == 0 then []
    else if |tokens| == 1 then QuoteToken(tokens[0])
    else QuoteToken(tokens[0]) + " " + EscapedCommandLine(tokens[1..])
  }

  /** Position of the first quote in s, or |s| when there is none. */
  function IndexOfQuote(s: string): (k: nat)
    ensures k <= |s|
    ensures forall i :: 0 <= i < k ==> s[i] != Quote
    ensures k < |s| ==> s[k] == Quote
  {
    if s == [] then 0
    else if s[0] == Quote then 0
    else 1 + IndexOfQuote(s[1..])
  }

  /** Reads a command line of quote-free tokens back into its tokens; None when
      the text is not of that shape. */
  function SplitQuoted(s: string): (r: Option<seq<string>>)
    decreases |s|
  {
    if s == [] then Some([])
    else if s[0] != Quote then None
    else
      var k := IndexOfQuote(s[1..]);
      if k == |s| - 1 then None
      else
        var token, rest := s[1..k + 1], s[k + 2..];
        if rest == [] then Some([token])
        else if |rest| < 2 || rest[0] != ' ' then None
        else match SplitQuoted(rest[1..])
          case None => None
          case Some(more) => Some([token] + more)
  }

  lemma {:induction false} IndexOfQuoteAfter(t: string, rest: string)
    requires NoQuote(t)
    ensures IndexOfQuote(t + [Quote] + rest) == |t|
  {
    if t != [] {
      assert (t + [Quote] + rest)[1..] == t[1..] + [Quote] + rest;
      IndexOfQuoteAfter(t[1..], rest);
    }
  }

  /** SplitQuoted on a line that opens with a closed quoted token. */
  lemma SplitQuotedStep(s: string, k: nat, token: string, rest: string)
    requires s != [] && s[0] == Quote
    requires k == IndexOfQuote(s[1..]) && k < |s| - 1
    requires token == s[1..k + 1] && rest == s[k + 2..]
    ensures SplitQuoted(s) ==
      if rest == [] then Some([token])
      else if |rest| < 2 || rest[0] != ' ' then None
      else match SplitQuoted(rest[1..])
        case None => None
        case Some(more) => Some([token] + more)
  {
  }

  /** SplitQuoted peels one quoted quote-free token off the front. */
  lemma SplitQuotedToken(t: string, tail: string)
    requires NoQuote(t)
    requires tail == [] || (|tail| >= 2 && tail[0] == ' ')
    ensures SplitQuoted([Quote] + t + [Quote] + tail) ==
      if tail == [] then Some([t])
      else match SplitQuoted(tail[1..])
        case None => None
        case Some(more) => Some([t] + more)
  {
    var s := [Quote] + t + [Quote] + tail;
    assert s[1..] == t + [Quote] + tail;
    IndexOfQuoteAfter(t, tail);
    assert s[1..|t| + 1] == t;
    assert s[|t| + 2..] == tail;
    SplitQuotedStep(s, |t|, t, tail);
  }

  /** The tail of a quote-free argument list is quote-free, and so is its head. */
  lemma QuoteFreeTail(tokens: seq<string>)
    requires QuoteFree(tokens) && tokens != []
    ensures NoQuote(tokens[0]) && QuoteFree(tokens[1..])
  {
    forall i | 0 <= i < |tokens| - 1 ensures NoQuote(tokens[1..][i]) {
      assert tokens[1..][i] == tokens[i + 1];
    }
  }

  /** The command line of two or more tokens is the first quoted token, a
      space and the command line of the rest. */
  lemma EscapedCons(tokens: seq<string>)
    requires |tokens| > 1 && NoQuote(tokens[0])
    ensures EscapedCommandLine(tokens)
      == [Quote] + tokens[0] + [Quote] + (" " + EscapedCommandLine(tokens[1..]))
  {
  }

  /** Splitting the command line gives back the argument list, so the command
      line determines the command whenever no token carries its own quote. */
  lemma {:induction false} SplitEscaped(tokens: seq<string>)
    requires QuoteFree(tokens)
    ensures SplitQuoted(EscapedCommandLine(tokens)) == Some(tokens)
  {
    if |tokens| == 1 {
      QuoteFreeTail(tokens);
      SplitQuotedToken(tokens[0], []);
      assert [Quote] + tokens[0] + [Quote] + [] == EscapedCommandLine(tokens);
      assert [tokens[0]] == tokens;
    } else if |tokens| > 1 {
      QuoteFreeTail(tokens);
      SplitEscaped(tokens[1..]);
      var rest := EscapedCommandLine(tokens[1..]);
      SplitQuotedToken(tokens[0], " " + rest);
      assert (" " + rest)[1..] == rest;
      EscapedCons(tokens);
      assert [tokens[0]] + tokens[1..] == tokens;
    }
  }

  /** Different quote-free argument lists give different command lines. */
  lemma EscapedCommandLineInjective(a: seq<string>, b: seq<string>)
    requires QuoteFree(a) && QuoteFree(b)
    requires EscapedCommandLine(a) == EscapedCommandLine(b)
    ensures a == b
  {
    SplitEscaped(a);
    SplitEscaped(b);
  }

  /** The example the command-line builder is pinned to. */
  lemma PhpInfoCommandLine()
    ensures EscapedCommandLine(["php", "-i"]) == "'php' '-i'"
  {
    assert NoQuote("php") && NoQuote("-i");
    assert EscapedCommandLine(["php", "-i"][1..]) == QuoteToken("-i");
  }
}
